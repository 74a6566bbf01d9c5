# Verification of the Git repository sync protocol

A Dafny 4.11 model of the part of `pilot-git-repo-connection` that turns webhook deliveries and manual requests
into code snapshots, with proofs about every run of it. Check everything with `dafny verify dfyconfig.toml`.

## What is modelled

**The sync-run protocol.** Deliveries, manual requests, workers and scope saves share the tables of events, sync
runs, head cursors, snapshots and active scope versions. A delivery is decided (queued, duplicate, stale,
record-only), then joined to the PENDING run of its ref, parked as the single BLOCKED follow-up behind a RUNNING
one, or given a new PENDING run. Dispatch is guarded by a 15-minute lease. A worker starts the run, resolves the
ref, reads the tree, commits a snapshot or fails, repairs the cursor and releases the follow-up.

- `Model`, `Decision`, `Transactions`: the rows, the lookups, and each `with session_factory()` transaction as a
  function from state to state. A transaction that raises is rolled back, so it is the identity.
- `Store`: the same transactions as the repositories and services do them, row by row in place, each method proved
  equal to its transaction.
- `World`: the state machine. One step is one transaction of a route or worker, a push to the remote, or a worker's
  read of the remote. Steps of any number of workers interleave freely, queue messages may be consumed any number of
  times, clocks only move forward, and payloads, heads, send results and exceptions are the environment's choice.
- `Invariant`, `Effects`, `Reachable`, `Steps`, `Safety`: the invariant of every run, transaction by transaction.
- `RunHistory`, `Builds`, `Leases`, `FollowUps`, `DistinctDeliveries`, `Released`, `Coalescing`, `Bursts`,
  `CursorRecovery`, `Rejections`, `RefKeys`, `Redelivery`, `Scopes`, `Rebuilds`, `Completion`: what follows between any
  two moments of any run.
- `Trails`, `Witnesses`: runs built step by step from the empty database, for the promises that fail.

**The in-memory limiter** (`Limiter`), with lazy pruning and the bucket cap, against recounting the whole log.

**The snapshot read pipeline** (`TreeReader`, `TreeListing`, `SnapshotPipeline`): the chunked NUL-record reader, the
parse of its records, the tree scan with path push-down and four caps, the scope filter, and push-down against
filtering the whole tree.

**Webhook secret rotation** (`Secrets`) characterised by its whole history, and **GitLab commit events**
(`CommitEvents`) under replay.

Modelling choices: a remote is a growing list of heads per ref, so "newer" means a later index; a ref key determines
its ref; a repeated delivery id carries the same payload; times are whole microseconds (seconds as reals in the
limiter); row ids and scope ids are drawn fresh. `fnmatchcase`, `str.lower`, UTF-8 decoding, `int` and the SHA-256
prefix are arbitrary functions, so the results hold for whatever they return. An enqueue that a delivery asked for may
be recorded as failed without a claim, because the GitHub route does that when no queue is configured
(`github_webhooks.py:107-116`) and when the claim itself raises. In the status order failed < succeeded, because a late
commit may turn a FAILED run SUCCEEDED. `_fail_empty_snapshot_build` is modelled without its
`if should_retry` after the retry-count test (`build_code_snapshot.py:490-499`): without retries left it is false.

## What the proofs found

- **Repeated deliveries can strand a follow-up.** A second delivery of the event that triggers a BLOCKED run rewrites
  it from VALIDATED to COMPLETED, after which no follow-up step releases the run (`Witnesses.StrandedByRepeat`). A
  failed send that is recorded for another run of the same event does the same (`Witnesses.StrandedBySend`).
  `FollowUps.StrandsExactly` is the exact condition; with distinct delivery ids neither happens
  (`DistinctDeliveries.AlwaysReady`).
- **Four kinds of step can lose a follow-up** even with distinct ids, and each does in some run from the empty database:
  cancelling a PENDING manual run (`Witnesses.LostByCancel`), a follow-up whose send fails (`Witnesses.LostBySend`), a
  webhook task whose failure handler raises too (`Witnesses.LostByHandler`), and a follow-up step that raises or runs
  without a queue (`Witnesses.LostByFollowUp`). `Released.CoveredExactly` says exactly when they do.
- **Two workers that take one message at once can mark a run FAILED while it is being built.** The second finds the run
  RUNNING where it expects it PENDING (`Completion.NotWaiting`), and its handler marks it FAILED
  (`Completion.FailureRecorded`). The first one's commit may still turn it SUCCEEDED.
- **Rejected deliveries are not recorded.** The repository's own requirements ask for a recorded reason for every
  rejected delivery. The code writes the row and then raises inside the session scope, which rolls it back
  (`session.py:12-20`). `Rejections.NothingRejected` proves that no REJECTED event is ever stored, and
  `Rejections.RetriesWereQueued` that the retry test's branch for one is dead. The model follows the code.

## Model

| member | source | states |
|---|---|---|
| `Safety.AlwaysSound` | pilot-git-repo-connection/src/tci/domain/services/process_github_event.py:367-516 | Every world any run of the protocol reaches keeps the whole invariant: indexes, one run per ref, cursors, snapshots, triggers, links, queue messages, versions and what each worker relies on. |
| `Safety.NextSound` | pilot-git-repo-connection/src/tci/infrastructure/queue/repository_ingestion_tasks.py:253-592 | One step of any route or worker, in any interleaving, keeps that invariant. |
| `RunHistory.StatusOnlyForward` | pilot-git-repo-connection/src/tci/infrastructure/persistence/repository_sync_run_repository.py:163-372 | Between any two moments of any run: ids stay issued, a stored run keeps its ref and origin and never moves back in blocked < pending < running < failed < succeeded, and a started run is never removed. |
| `RunHistory.TerminalStays` | pilot-git-repo-connection/src/tci/infrastructure/persistence/repository_sync_run_repository.py:336-372 | SUCCEEDED is absorbing, with its resolved commit; a terminal run never becomes active again. |
| `RunHistory.StartsAtMostOnce` | pilot-git-repo-connection/src/tci/infrastructure/persistence/repository_sync_run_repository.py:306-334 | However often a run is dispatched and whichever workers take it, its start transition succeeds at most once. |
| `RunHistory.LinkedBeforeStart` | pilot-git-repo-connection/src/tci/domain/services/process_github_event.py:400-516 | The transaction that first links an event to a run comes before the run's start. |
| `RunHistory.NoLostUpdate` | pilot-git-repo-connection/src/tci/domain/services/build_code_snapshot.py:94-135 | If a run that an event was ever linked to succeeds, the commit it resolved is a head of the run's ref at least as new as the one the event announced. |
| `CursorRecovery.OneActiveOneBlocked` | pilot-git-repo-connection/src/tci/infrastructure/persistence/models.py:928-942 | In every reachable world two runs of one ref are never both PENDING-or-RUNNING and never both BLOCKED, with no help from the unique indexes. |
| `CursorRecovery.CursorsNeverFailed` | pilot-git-repo-connection/src/tci/infrastructure/queue/repository_ingestion_tasks.py:807-852 | In every reachable world a cursor names a stored event of its own connection and target, carries exactly that event's head, and the event is not FAILED. |
| `CursorRecovery.FailedTaskFallsBack` | pilot-git-repo-connection/src/tci/infrastructure/queue/repository_ingestion_tasks.py:327-390 | After a failed webhook task the run and its event are FAILED and the cursor of the target is the newest eligible event by (received_at, id) if there is one; otherwise it no longer names the failed event and is otherwise untouched. No other cursor moves. |
| `CursorRecovery.FailedSendFallsBack` | pilot-git-repo-connection/src/tci/infrastructure/queue/repository_ingestion_tasks.py:656-713 | The same after a follow-up whose task could not be sent. |
| `CursorRecovery.RestoreFallsBack` | pilot-git-repo-connection/src/tci/infrastructure/queue/repository_ingestion_tasks.py:807-852 | Where restoring a cursor leaves every cursor, in both cases. |
| `CursorRecovery.NewestIsUnique` | pilot-git-repo-connection/src/tci/infrastructure/persistence/repository_event_repository.py:142-148 | The newest eligible event is one event: the listing order is total. |
| `Builds.SucceededIffOneSnapshot` | pilot-git-repo-connection/src/tci/domain/services/build_code_snapshot.py:236-293 | In every reachable world a run is SUCCEEDED iff exactly one snapshot carries its id, and that snapshot is of the commit the run resolved. |
| `Builds.LoserGetsWinner` | pilot-git-repo-connection/src/tci/domain/services/build_code_snapshot.py:315-323 | A worker that loses the commit race changes nothing and at its next step returns the winner's snapshot, the only one the run has. |
| `Builds.ScopeAtCommit` | pilot-git-repo-connection/src/tci/domain/services/build_code_snapshot.py:246-254 | With scope saves anywhere in between, every stored snapshot was committed at a step at which its scope version was the active one of the run's connection. |
| `Builds.WorkersEnd` | pilot-git-repo-connection/src/tci/domain/services/build_code_snapshot.py:294-302 | A worker does at most 20 transactions, at most two of them tree reads, however often the scope changes; that it does use its second attempt is the row Rebuilds.ScopeChangeRetries. |
| `Rebuilds.ScopeChangeRetries` | pilot-git-repo-connection/src/tci/domain/services/build_code_snapshot.py:294-311 | In any run: a build that ends, at its commit or at an empty result, under a scope version that is not active has read one tree or two. After one it starts over with no retry left; after two it gives up, MirrorSyncFailed at a commit; the database is untouched. |
| `Rebuilds.SecondReadsActive` | pilot-git-repo-connection/src/tci/domain/services/build_code_snapshot.py:143-162 | After a scope change at its first attempt, until another version is saved, the build reads and ends under the active version. |
| `Rebuilds.SecondCommitEnds` | pilot-git-repo-connection/src/tci/domain/services/build_code_snapshot.py:240-293 | So its second commit, with no further save, commits or finds the run's snapshot; it never finds the scope changed again. |
| `Completion.BuildSucceeds` | pilot-git-repo-connection/src/tci/domain/services/build_code_snapshot.py:62-293 | A worker that has taken the message of a PENDING run whose ref exists, with nothing interfering, holds the run's one snapshot after its seventh transaction, the run SUCCEEDED, whatever else goes on. |
| `Completion.RetrySucceeds` | pilot-git-repo-connection/src/tci/domain/services/build_code_snapshot.py:294-302 | And a build that found its scope changed at its first attempt succeeds with five transactions more. |
| `Completion.MessageWhileRunning` | pilot-git-repo-connection/src/tci/infrastructure/queue/repository_ingestion_tasks.py:288-295 | A webhook message for a RUNNING run is dropped, unless the run started more than fifteen minutes ago: then its build is taken up again. |
| `Completion.MessageAfterSuccess` | pilot-git-repo-connection/src/tci/domain/services/build_code_snapshot.py:78-85 | A message for a run that has SUCCEEDED ends with the run's one snapshot in three transactions, whatever else goes on. |
| `Completion.ResolvesNewest` | pilot-git-repo-connection/src/tci/domain/services/build_code_snapshot.py:122-126 | A build resolves the newest head of its ref, or fails with REF_NOT_FOUND if there is none. |
| `Completion.RaiseRecorded` | pilot-git-repo-connection/src/tci/domain/services/build_code_snapshot.py:163-235 | A build whose Git work or commit raises changes nothing by that; at the worker's next turn its run is FAILED with the failure's code, unless another worker has made it SUCCEEDED, and the task's handler is next. |
| `Completion.FailureRecorded` | pilot-git-repo-connection/src/tci/infrastructure/queue/repository_ingestion_tasks.py:349-363 | A failed build, an empty result under the active scope and a task's handler each leave the run FAILED with their code, unless it is done already; no other run changes. |
| `Completion.EndsTerminal` | pilot-git-repo-connection/src/tci/infrastructure/queue/repository_ingestion_tasks.py:391-410 | In any run, when a worker has come to its follow-up and its failure handler did not raise, its run is not left PENDING or RUNNING. |
| `Completion.NotWaiting` | pilot-git-repo-connection/src/tci/domain/services/build_code_snapshot.py:86-92 | A build of a run that is RUNNING, begun by another worker, or FAILED goes to the failure handler, unless it is one taken up again. |
| `Completion.FollowUpNext` | pilot-git-repo-connection/src/tci/infrastructure/queue/repository_ingestion_tasks.py:391-410 | After a snapshot and after the failure handler comes the follow-up; only a webhook task's raising handler ends the worker without one. |
| `Scopes.VersionStays` | pilot-git-repo-connection/src/tci/infrastructure/persistence/repository_connection_repository.py:493-500 | In any run, once a connection has an active scope version only saving another one for that connection changes it. |
| `Builds.PhaseProgress` | pilot-git-repo-connection/src/tci/domain/services/build_code_snapshot.py:436-503 | Each worker transaction strictly lowers the work left, and a tree read uses up one of two. |
| `Builds.EventCompleted` | pilot-git-repo-connection/src/tci/infrastructure/queue/repository_ingestion_tasks.py:308-326 | A webhook task that ends well leaves its event COMPLETED, naming the run's one snapshot, and no other event changed. |
| `Leases.ClaimsFarApart` | pilot-git-repo-connection/src/tci/infrastructure/persistence/repository_sync_run_repository.py:277-304 | Two successful claims of one run with no failed send between them: the second tests a time at least 15 minutes after the first one's marker, and when the second is a webhook route's its own marker is at least that far from the first. |
| `Leases.ClaimAfterProcess` | pilot-git-repo-connection/src/tci/domain/services/process_github_event.py:669-701 | Whenever processing a delivery asks for an enqueue, the claim that follows it, at any later time, is enabled and succeeds. |
| `Leases.FailedSendGivesBack` | pilot-git-repo-connection/src/tci/domain/services/process_github_event.py:533-566 | After a recorded enqueue failure a PENDING run can be claimed at once, and a repeat of the delivery is retryable and dispatchable. |
| `FollowUps.StrandsExactly` | pilot-git-repo-connection/src/tci/domain/services/process_github_event.py:367-395 | A step keeps every BLOCKED run releasable (its trigger VALIDATED and linked back) iff it is none of: a repeat of a follow-up's trigger delivery, or a failed send for another run the same event belongs to. |
| `FollowUps.ProcessReady` | pilot-git-repo-connection/src/tci/domain/services/process_github_event.py:742-782 | For one delivery: it strands a follow-up iff its id is already stored and that event triggers a BLOCKED run. |
| `Witnesses.StrandedByRepeat` | pilot-git-repo-connection/src/tci/domain/services/process_github_event.py:389-395 | A run of eight steps from the empty database whose last step, a repeat of a follow-up's trigger delivery, strands it, with or without a queue. |
| `Witnesses.StrandedBySend` | pilot-git-repo-connection/src/tci/api/routes/github_webhooks.py:116-143 | A run of thirteen steps in which the dispatch of an event's earlier run is claimed, its task is queued, and the enqueue is then recorded as failed: that strands the follow-up the same event triggers by then. |
| `FollowUps.StrandedStays` | pilot-git-repo-connection/src/tci/infrastructure/queue/repository_ingestion_tasks.py:519-543 | A BLOCKED run whose trigger is not VALIDATED or not linked back stays as it is through every follow-up step. |
| `DistinctDeliveries.AlwaysReady` | pilot-git-repo-connection/src/tci/domain/services/process_github_event.py:468-505 | With distinct delivery ids, in every reachable world each BLOCKED run's trigger is VALIDATED and links back to it, and no link is ever replaced or cleared. |
| `Released.NoStuckFollowUp` | pilot-git-repo-connection/src/tci/infrastructure/queue/repository_ingestion_tasks.py:422-574 | With distinct delivery ids, after a finished run's follow-up step (queue configured) no BLOCKED run of its ref remains unless a PENDING or RUNNING one is there; if none was there, the BLOCKED one is released and its own task goes out. |
| `Released.NothingLeftBehind` | pilot-git-repo-connection/src/tci/infrastructure/queue/repository_ingestion_tasks.py:422-592 | With distinct delivery ids and no step that loses a follow-up, in every reachable world each BLOCKED run has an active run on its ref or a worker that still owes a follow-up of that ref. |
| `Released.IdleIsCovered` | pilot-git-repo-connection/src/tci/infrastructure/queue/repository_ingestion_tasks.py:422-592 | Under the same conditions, once every worker is done each BLOCKED run has a PENDING or RUNNING run on its ref. |
| `Released.NoneToLose` | pilot-git-repo-connection/src/tci/infrastructure/queue/repository_ingestion_tasks.py:576-592 | A test without the workers: a step loses no follow-up while the ref of the run it acts for has no BLOCKED run. |
| `Witnesses.LostByHandler` | pilot-git-repo-connection/src/tci/infrastructure/queue/repository_ingestion_tasks.py:327-402 | A run with distinct delivery ids, covered up to its last step, whose last step loses a follow-up: the failure handler of a webhook task raises. |
| `Witnesses.LostByFollowUp` | pilot-git-repo-connection/src/tci/infrastructure/queue/repository_ingestion_tasks.py:576-592 | The same for a follow-up step that raises, or that runs without a queue. |
| `Witnesses.LostBySend` | pilot-git-repo-connection/src/tci/infrastructure/queue/repository_ingestion_tasks.py:656-713 | The same for a failed send: a third push starts a PENDING run beside the BLOCKED one, the follow-up claims it, and its task cannot be sent. |
| `Witnesses.LostByCancel` | pilot-git-repo-connection/src/tci/infrastructure/persistence/repository_sync_run_repository.py:374-381 | The same for the cancel of a PENDING manual run that waits beside a BLOCKED one. |
| `Released.CoveredExactly` | pilot-git-repo-connection/src/tci/infrastructure/queue/repository_ingestion_tasks.py:576-592 | One step keeps that iff it is not one of the four losing kinds taking away the last thing that covers a BLOCKED run. |
| `Released.NextRunUnblocks` | pilot-git-repo-connection/src/tci/infrastructure/persistence/repository_sync_run_repository.py:204-250 | A follow-up that finds a BLOCKED run finds an active run of the ref or releases the BLOCKED one. |
| `Coalescing.LatestWins` | pilot-git-repo-connection/src/tci/domain/services/process_github_event.py:468-516 | While a run is RUNNING, any nonempty burst of fresh queued deliveries of its ref leaves exactly one BLOCKED run, triggered by the last, which is queued and VALIDATED on it and holds the cursor; every earlier one is a completed duplicate on that same run. |
| `Bursts.LatestWinsInterleaved` | pilot-git-repo-connection/src/tci/domain/services/process_github_event.py:468-516 | In any run of the protocol, while a run stays RUNNING on a ref and every delivery for the ref is new and queued, with any other steps of any route or worker between: the ref has one BLOCKED run, the last delivery triggers it, and every one of them was linked to it. |
| `Bursts.BurstReleasable` | pilot-git-repo-connection/src/tci/domain/services/process_github_event.py:610-666 | With distinct delivery ids that run can be released, and every one of those deliveries is still linked to it. |
| `Bursts.LatestHoldsCursor` | pilot-git-repo-connection/src/tci/infrastructure/persistence/repository_event_cursor_repository.py:36-54 | The last delivery holds its target's cursor as long as no later step is a delivery for that cursor or the failure of a task or send whose event has it. |
| `Bursts.NextHolds` | pilot-git-repo-connection/src/tci/infrastructure/persistence/repository_sync_run_repository.py:204-250 | A BLOCKED run behind a RUNNING one is changed by no step but a delivery for its ref. |
| `Coalescing.ParkStep` | pilot-git-repo-connection/src/tci/domain/services/process_github_event.py:610-666 | One such delivery: it becomes the trigger, the trigger it replaces is superseded on the same run, and no other event changes. |
| `Coalescing.JoinsPending` | pilot-git-repo-connection/src/tci/domain/services/process_github_event.py:417-457 | While a run of the ref is PENDING, a fresh queued delivery joins it as a completed duplicate; no run and no cursor changes, and the run's trigger is sent again iff it is QUEUED for the run and the run is unmarked or marked more than 15 minutes ago. |
| `Coalescing.StartsFresh` | pilot-git-repo-connection/src/tci/domain/services/process_github_event.py:458-516 | With no active run on the ref it starts a PENDING run of its own, takes the cursor and asks to be enqueued. |
| `RefKeys.DeliveryRun` | pilot-git-repo-connection/src/tci/domain/services/process_github_event.py:1020-1023 | The run a delivery is attached to has the delivery's connection and ref kind, and as its key the target key, unless that is empty or default_ref: then the ref's name. |
| `RefKeys.SharedRun` | pilot-git-repo-connection/src/tci/domain/services/process_github_event.py:406-470 | In any run, two events ever linked to one run have one connection, one ref kind and one target: equal keys of their own, default refs of one name, or a key of one spelt like the name of the other's default ref. |
| `RefKeys.RunsDontMix` | pilot-git-repo-connection/src/tci/infrastructure/webhooks/github_event_parser.py:43-81 | With payloads as the parsers make them, and no colon in a pushed ref's name, the events of one run have the same target key, and pushes the same ref name: no two pull or merge requests share a run, whatever their branches are called. |
| `RefKeys.NamedLikeAKey` | pilot-git-repo-connection/src/tci/infrastructure/webhooks/gitlab_event_parser.py:20-81 | Without that, a push to a branch called mr:7 is about the ref of merge request 7, though the target keys differ. |
| `Redelivery.RetryIs` | pilot-git-repo-connection/src/tci/domain/services/process_github_event.py:747-782 | A stored event is tried again iff it is REJECTED, or queued and FAILED, or queued and QUEUED with its run PENDING and unmarked or marked more than 15 minutes ago. |
| `Redelivery.RetriedRowIs` | pilot-git-repo-connection/src/tci/domain/services/process_github_event.py:367-395 | Then its row takes the delivery's target, head and arrival time, and it is not a duplicate delivery. |
| `Redelivery.RepeatedRow` | pilot-git-repo-connection/src/tci/domain/services/process_github_event.py:389-395 | Any other repeat completes its row as a duplicate delivery, or as recorded only if its connection turns it away, and changes nothing else anywhere. |
| `Redelivery.RetriedInVain` | pilot-git-repo-connection/src/tci/domain/services/process_github_event.py:389-395 | One that is tried again but is no longer worth doing is completed, unlinked from its run, as recorded or stale; nothing else changes. |
| `Redelivery.NewRow` | pilot-git-repo-connection/src/tci/domain/services/process_github_event.py:320-356 | The row of a new delivery carries its own fields and the time it came. |
| `Redelivery.OnlyRecords` | pilot-git-repo-connection/src/tci/domain/services/process_github_event.py:152-194 | A new delivery that is only recorded, that repeats the head last seen for its target while no run waits, or whose head is no longer current leaves its completed row and nothing else. |
| `Redelivery.FailedStartsAgain` | pilot-git-repo-connection/src/tci/domain/services/process_github_event.py:458-516 | A FAILED event delivered again, worth doing, with no active run on its ref, gets a new PENDING run, takes the cursor and is enqueued. |
| `Redelivery.WaitingIsSent` | pilot-git-repo-connection/src/tci/infrastructure/queue/repository_ingestion_tasks.py:463-508 | The follow-up of a finished run sends the PENDING run that waits, and marks it, if it is unmarked or was marked more than 15 minutes ago; otherwise it sends nothing and changes nothing. |
| `Redelivery.BlockedIsSent` | pilot-git-repo-connection/src/tci/infrastructure/queue/repository_ingestion_tasks.py:510-561 | With no active run on the ref it releases the BLOCKED run whose trigger is VALIDATED, queues the trigger, marks the run and sends it. |
| `Redelivery.ClaimSends` | pilot-git-repo-connection/src/tci/api/routes/github_webhooks.py:116-225 | The route's claim marks the run and queues its message iff the run is PENDING and unmarked or marked at least 15 minutes ago. |
| `Redelivery.ManualSends` | pilot-git-repo-connection/src/tci/domain/services/create_initial_snapshot.py:37-75 | A manual request creates a PENDING run and queues its message iff its ref has no PENDING or RUNNING run. |
| `Redelivery.WaitingGoesOut` | pilot-git-repo-connection/src/tci/infrastructure/queue/repository_ingestion_tasks.py:576-592 | In any world the worker of such a follow-up goes on to send the message of that run and its trigger. |
| `Coalescing.RepeatsChangeNothing` | pilot-git-repo-connection/src/tci/domain/services/process_github_event.py:152-194 | Repeating a delivery that is not retryable, any number of times, changes nothing but the decision and status of its own row, and enqueues nothing. |
| `Coalescing.RetryReusesRun` | pilot-git-repo-connection/src/tci/domain/services/process_github_event.py:424-457 | In every reachable world, when a queued event whose run is still PENDING, unmarked or marked more than 15 minutes ago, is delivered again, worth doing, it joins that very run and adds none; if it is the run's trigger it is enqueued again and holds the cursor. |
| `Model.Latest` | pilot-git-repo-connection/src/tci/infrastructure/persistence/repository_sync_run_repository.py:95-138 | The latest row of a ref and status by (started_at, id), or none iff no row matches. |
| `Model.Earliest` | pilot-git-repo-connection/src/tci/infrastructure/persistence/repository_sync_run_repository.py:140-161 | The earliest such row, or none iff no row matches. |
| `Model.ExtremesExist` | pilot-git-repo-connection/src/tci/infrastructure/persistence/repository_sync_run_repository.py:95-161 | A finite table with a matching row has both. |
| `Model.NewestEligible` | pilot-git-repo-connection/src/tci/infrastructure/queue/repository_ingestion_tasks.py:815-836 | The newest event that may take over a cursor, or none iff no event is eligible. |
| `Transactions.SnapshotOf` | pilot-git-repo-connection/src/tci/infrastructure/persistence/code_snapshot_repository.py:105-107 | The snapshot of a run, and there is one iff any snapshot carries the run's id. |
| `Rejections.NothingRejected` | pilot-git-repo-connection/src/tci/infrastructure/persistence/session.py:12-20 | Although deliveries that do not verify write REJECTED rows and marks, no reachable world holds an event whose decision or status is REJECTED. |
| `Rejections.RetriesWereQueued` | pilot-git-repo-connection/src/tci/domain/services/process_github_event.py:669-701 | So the REJECTED branch of the retry test is dead: in every reachable world a retryable event has a queued decision, and has FAILED or waits with its PENDING run for a dispatch. |
| `Invariant.ProcessKeeps` | pilot-git-repo-connection/src/tci/domain/services/process_github_event.py:206-519 | A delivery keeps one run per ref, cursors, snapshots, triggers and links sound. |
| `Invariant.FailEventKeeps` | pilot-git-repo-connection/src/tci/infrastructure/queue/repository_ingestion_tasks.py:373-390 | Failing an event and restoring its cursor in one transaction never leaves a cursor on a FAILED event. |
| `Invariant.FollowUpKeeps` | pilot-git-repo-connection/src/tci/infrastructure/queue/repository_ingestion_tasks.py:422-574 | A follow-up keeps the invariant; releasing a BLOCKED run leaves it the only active one. |
| `Invariant.CommitKeeps` | pilot-git-repo-connection/src/tci/domain/services/build_code_snapshot.py:236-293 | A commit keeps exactly the SUCCEEDED runs with exactly one snapshot each. |
| `Effects.ProcessEvolves` | pilot-git-repo-connection/src/tci/domain/services/process_github_event.py:396-516 | A delivery adds at most one link, to a run of its own ref that has not started, and starts or completes none. |
| `Effects.ProcessShape` | pilot-git-repo-connection/src/tci/domain/services/process_github_event.py:424-530 | What a delivery reports: its own row, a run it is linked to, and an enqueue only for a stale PENDING run whose trigger is queued and linked back. |
| `Storage.Store.ProcessDelivery` | pilot-git-repo-connection/src/tci/domain/services/process_github_event.py:206-519 | The service's row-by-row updates are the delivery transaction of the protocol, and the run it attaches to is about the delivery's own target. |
| `Storage.Store.RecordDelivery` | pilot-git-repo-connection/src/tci/domain/services/process_github_event.py:320-395 | Creating or refreshing the event row, with the link cleared only for a retry that is not queued. |
| `Storage.Store.AttachToRun` | pilot-git-repo-connection/src/tci/domain/services/process_github_event.py:396-516 | Joining, parking or starting, row by row, on a run about the delivery's own target. |
| `Storage.Store.CreateOrReplaceBlocked` | pilot-git-repo-connection/src/tci/domain/services/process_github_event.py:610-666 | Creating the follow-up or replacing its trigger. |
| `Storage.Store.RecordEnqueueFailure` | pilot-git-repo-connection/src/tci/domain/services/process_github_event.py:533-577 | Clearing the marker and requeueing the event; nothing changes if either row is missing. |
| `Storage.Store.RejectDelivery` | pilot-git-repo-connection/src/tci/domain/services/process_github_event.py:833-917 | What a delivery that does not verify writes before the service raises: a new REJECTED row, or the mark on a row that is not verified; no verified row, run or cursor is touched. |
| `Storage.Store.UpdateProcessing` | pilot-git-repo-connection/src/tci/infrastructure/persistence/repository_event_repository.py:150-173 | The decision and status of one event row, its snapshot if given, and its run: a given one, else none if it is to be cleared, else the old one; no other row changes. |
| `Storage.Store.ListForConnection` | pilot-git-repo-connection/src/tci/infrastructure/persistence/repository_event_repository.py:142-148 | All events of the connection and no others, received_at and then id descending. |
| `Storage.Store.UpsertCursor` | pilot-git-repo-connection/src/tci/infrastructure/persistence/repository_event_cursor_repository.py:36-54 | The cursor row is there afterwards with that head and event; no other cursor changes. |
| `Storage.Store.DeleteIfLatestEvent` | pilot-git-repo-connection/src/tci/infrastructure/persistence/repository_event_cursor_repository.py:56-63 | The cursor row goes only if it names that event. |
| `Storage.Store.UpdateBlockedTrigger` | pilot-git-repo-connection/src/tci/infrastructure/persistence/repository_sync_run_repository.py:163-182 | Only a BLOCKED run takes a new trigger; its times and failure are reset. |
| `Storage.Store.ReleaseBlockedIfNoActive` | pilot-git-repo-connection/src/tci/infrastructure/persistence/repository_sync_run_repository.py:204-250 | Released iff the run is BLOCKED and no other run of the ref is PENDING or RUNNING; then it is PENDING, unmarked, with its trigger; no other run changes, and one active and one BLOCKED run per ref stay so. |
| `Storage.Store.ClaimDispatchEnqueued` | pilot-git-repo-connection/src/tci/infrastructure/persistence/repository_sync_run_repository.py:277-304 | Claimed iff the run is PENDING and unmarked or marked no later than the stale time; only its marker changes, and from then on it can be claimed exactly from stale times that have reached the new marker. |
| `Storage.Store.SetRunning` | pilot-git-repo-connection/src/tci/infrastructure/persistence/repository_sync_run_repository.py:306-334 | PENDING to RUNNING, refused otherwise. |
| `Storage.Store.SetFailed` | pilot-git-repo-connection/src/tci/infrastructure/persistence/repository_sync_run_repository.py:354-372 | FAILED unless SUCCEEDED. |
| `Storage.Store.DeletePending` | pilot-git-repo-connection/src/tci/infrastructure/persistence/repository_sync_run_repository.py:374-381 | Deleted iff PENDING and no event links to it, so no link is left dangling; every other run stays as it is. |
| `Storage.Store.SaveActiveScope` | pilot-git-repo-connection/src/tci/infrastructure/persistence/scope_rule_repository.py:41-71 | From then on exactly the builds of the connection that read under another version are refused at their commit; other connections' scopes stay. |
| `Storage.Store.EnsureDefaultScope` | pilot-git-repo-connection/src/tci/infrastructure/persistence/repository_connection_repository.py:480-522 | The version the connection has, with nothing changed; if it has none, the new one becomes active. |
| `Storage.Store.RestoreCursorAfterFailure` | pilot-git-repo-connection/src/tci/infrastructure/queue/repository_ingestion_tasks.py:807-852 | Walking the newest-first listing to the first eligible event is restoring the cursor to the newest eligible one. |
| `Storage.FirstEligible` | pilot-git-repo-connection/src/tci/infrastructure/queue/repository_ingestion_tasks.py:815-836 | The first eligible row of the listing is the newest eligible event. |
| `Storage.Store.HandleTaskFailure` | pilot-git-repo-connection/src/tci/infrastructure/queue/repository_ingestion_tasks.py:327-402 | The webhook task's exception handler. |
| `Storage.Store.HandleDispatchFailure` | pilot-git-repo-connection/src/tci/infrastructure/queue/repository_ingestion_tasks.py:656-726 | The bookkeeping of a failed follow-up send. |
| `Storage.Store.CommitBuild` | pilot-git-repo-connection/src/tci/domain/services/build_code_snapshot.py:236-293 | Committed iff the scope read is still active and no snapshot carries the run; then the run is SUCCEEDED with that commit and this is its one snapshot; otherwise nothing changes. Other runs stay. |
| `Storage.Store.FailEmptyBuild` | pilot-git-repo-connection/src/tci/domain/services/build_code_snapshot.py:449-475 | An empty result fails the run only while its scope is still active. |
| `Storage.Store.ChooseNext` | pilot-git-repo-connection/src/tci/infrastructure/queue/repository_ingestion_tasks.py:463-561 | Row by row, the choice of the protocol's follow-up; when a waiting run counts is the row Redelivery.WaitingIsSent. |
| `Storage.Store.DispatchNext` | pilot-git-repo-connection/src/tci/infrastructure/queue/repository_ingestion_tasks.py:422-574 | Row by row, the protocol's follow-up up to its send; what it sends is in the rows Redelivery.WaitingIsSent and Redelivery.BlockedIsSent. |
| `Storage.Store.RequestManualSync` | pilot-git-repo-connection/src/tci/domain/services/create_initial_snapshot.py:37-75 | Created iff no run of the ref is PENDING or RUNNING: one new PENDING run without trigger or marker; otherwise nothing changes. |
| `Limiting.Limiter.Allow` | pilot-git-repo-connection/src/tci/api/routes/github_webhooks.py:228-276 | Every answer is the one recounting the whole log of accepted requests gives, and exactly the accepted requests are logged. |
| `Limiting.Replay` | pilot-git-repo-connection/src/tci/api/routes/github_webhooks.py:228-276 | For every history with a nondecreasing clock, every answer is the naive limiter's. |
| `Limiting.WindowsBounded` | pilot-git-repo-connection/src/tci/api/routes/github_webhooks.py:228-276 | No 60-second window, wherever it ends, holds more than 120 accepts of a (source, connection) pair or 600 of a source. |
| `Limiting.LivePairsBounded` | pilot-git-repo-connection/src/tci/api/routes/github_webhooks.py:257-263 | From the last request on, at most 4096 pairs have a recent accept. |
| `Limiting.RoomWhenPresent` | pilot-git-repo-connection/src/tci/api/routes/github_webhooks.py:254-268 | A pair that has a bucket, expired or not, leaves room for at most 4095 other live pairs, so skipping the cap test for it is right. |
| `Limiting.PruneTimes` | pilot-git-repo-connection/src/tci/api/routes/github_webhooks.py:348-350 | Popping from the front keeps exactly the times inside the window. |
| `Limiting.PruneBuckets` | pilot-git-repo-connection/src/tci/api/routes/github_webhooks.py:353-370 | Exactly the buckets with a time inside the window stay, pruned. |
| `TreeReading.ReadRecords` | pilot-git-repo-connection/src/tci/infrastructure/git/git_mirror_manager.py:264-306 | However the stream is chunked: exactly the nonempty NUL-terminated records in order, and failure iff an unterminated nonempty tail is left. |
| `TreeReading.FieldsRoundTrip` | pilot-git-repo-connection/src/tci/infrastructure/git/git_mirror_manager.py:287-290 | Cutting at NULs loses nothing: the fields hold no NUL and join to the stream. |
| `TreeReading.FieldsOfJoin` | pilot-git-repo-connection/src/tci/infrastructure/git/git_mirror_manager.py:287-290 | And every list of NUL-free fields is what cutting its join gives. |
| `TreeReading.ChunkingIrrelevant` | pilot-git-repo-connection/src/tci/infrastructure/git/git_mirror_manager.py:283-290 | Two chunkings of one stream are the same input. |
| `SnapshotPipeline.ReadEntries` | pilot-git-repo-connection/src/tci/infrastructure/git/git_mirror_manager.py:172-237 | Fails iff one of the four caps is exceeded over the whole tree or something cannot be read; otherwise exactly the blobs the rules let through, in tree order, none under an excluded directory or above the size limits. |
| `TreeListing.ReadSnapshot` | pilot-git-repo-connection/src/tci/infrastructure/git/git_mirror_manager.py:172-306 | From chunks of bytes to entries: fails iff the stream ends inside a record, a cap is exceeded, a record cannot be parsed or an opened blob cannot be read; otherwise exactly the blobs of the listing the rules let through, none under an excluded directory or above the size limits. |
| `TreeListing.ParseLine` | pilot-git-repo-connection/src/tci/infrastructure/git/git_mirror_manager.py:186-204 | A record as Git writes it, of any padding and any path, is parsed back to its object: kind, size, path and content. |
| `TreeListing.ListedTree` | pilot-git-repo-connection/src/tci/infrastructure/git/git_mirror_manager.py:177-204 | The listing of any tree, however it is cut into chunks, is read as exactly its objects in order, with nothing left over. |
| `SnapshotPipeline.PartsRoundTrip` | pilot-git-repo-connection/src/tci/domain/services/default_scope_policy.py:21-23 | The parts of a path hold no slash and joined by slashes are the path. |
| `SnapshotPipeline.HardExcludedExactly` | pilot-git-repo-connection/src/tci/domain/services/default_scope_policy.py:21-23 | A path is excluded iff some maximal slash-free stretch of it is one of the eight directory names. |
| `SnapshotPipeline.KeepsExactly` | pilot-git-repo-connection/src/tci/domain/services/scope_filter_engine.py:32-66 | The filter keeps an entry iff no such stretch, some include pattern if there are any, no exclude pattern, no blocked ending, some allowed ending if any, no NUL byte if binaries are excluded, and the size allow it. |
| `SnapshotPipeline.PushDown` | pilot-git-repo-connection/src/tci/infrastructure/git/git_mirror_manager.py:172-237 | Reading with push-down and then filtering equals filtering every blob of the tree of at most 5 MiB, and the filter drops nothing the reader returned. |
| `SnapshotPipeline.TakenIsKept` | pilot-git-repo-connection/src/tci/infrastructure/git/git_mirror_manager.py:493-507 | For one blob, the scan takes it iff the filter keeps it and it is at most 5 MiB. |
| `SnapshotPipeline.FilterEntries` | pilot-git-repo-connection/src/tci/domain/services/scope_filter_engine.py:26-77 | The entries the rules keep, in order, marked with why; none under an excluded directory. |
| `SnapshotPipeline.FilteredClean` | pilot-git-repo-connection/src/tci/domain/services/scope_filter_engine.py:49-64 | Every kept entry is a given one, marked as the user's iff it matches an include pattern or was so marked before. |
| `SecretRotation.SecretStore.Rotate` | pilot-git-repo-connection/src/tci/domain/services/rotate_webhook_secret.py:35-86 | One rotation: revoke, demote, insert; the grace period is reported iff there was an active revision. |
| `SecretRotation.SecretStore.RevokePreviousGrace` | pilot-git-repo-connection/src/tci/infrastructure/persistence/webhook_secret_repository.py:109-123 | Every revision of the connection in grace is revoked, row by row. |
| `SecretRotation.SecretStore.MarkPreviousGrace` | pilot-git-repo-connection/src/tci/infrastructure/persistence/webhook_secret_repository.py:98-107 | The revision is put in grace until the given time. |
| `SecretRotation.RotationHistory` | pilot-git-repo-connection/src/tci/domain/services/rotate_webhook_secret.py:35-86 | After any rotations at increasing times the last revision is active, the one before it in grace until 24 hours after the last rotation, the rest revoked, and no other connection's row changed. |
| `SecretRotation.CandidatesAre` | pilot-git-repo-connection/src/tci/infrastructure/persistence/webhook_secret_repository.py:59-84 | The candidate list at any time from the last rotation on is exactly the last revision first, followed by the one before it iff at most 24 hours have passed. |
| `CommitEvents.CommitShas` | pilot-git-repo-connection/src/tci/infrastructure/webhooks/gitlab_event_parser.py:176-187 | Exactly the commit ids that are neither missing nor null, once each, in order of first occurrence. |
| `CommitEvents.DerivedIdsFit` | pilot-git-repo-connection/src/tci/domain/services/process_gitlab_event.py:817-823 | Derived delivery ids have at most 255 characters and differ for different commit ids of one length up to 64. |
| `CommitEvents.DerivedId` | pilot-git-repo-connection/src/tci/domain/services/process_gitlab_event.py:817-823 | A derived id that fits in 255 characters is the delivery id, the mark and the commit; a longer one is cut to 255 with a digest of the delivery id. |
| `CommitEvents.UncutIdsDiffer` | pilot-git-repo-connection/src/tci/domain/services/process_gitlab_event.py:817-820 | Two deliveries whose ids fit share a derived id, for commits of one length, iff they are one delivery and one commit. |
| `CommitEvents.CutIdsDiffer` | pilot-git-repo-connection/src/tci/domain/services/process_gitlab_event.py:821-823 | Cut ids are equal iff the commits, the digests and the delivery ids' first characters are. |
| `CommitEvents.TwoDeliveries` | pilot-git-repo-connection/src/tci/domain/services/process_gitlab_event.py:758-814 | A commit named by two deliveries whose ids fit gets a row from each. |
| `CommitEvents.CommitLog.Record` | pilot-git-repo-connection/src/tci/domain/services/process_gitlab_event.py:758-814 | The rows that were there stay, and there is a new row for exactly the commits whose derived id was not there. |
| `CommitEvents.CommitLog.RecordPush` | pilot-git-repo-connection/src/tci/domain/services/process_gitlab_event.py:758-814 | From the raw commit list of one push to its rows. |
| `CommitEvents.OneRowPerId` | pilot-git-repo-connection/src/tci/domain/services/process_gitlab_event.py:758-814 | However often one push is delivered, every commit id in its raw list that is neither missing nor null has exactly one row of its own, from the first delivery, and there is no other new row. |
| `CommitEvents.OneRowPerCommit` | pilot-git-repo-connection/src/tci/domain/services/process_gitlab_event.py:758-814 | Any number of replays of a push leaves exactly one row per commit id, under its derived id and from the first delivery. |

## Left out

- Leases.ClaimsFarApart: for a follow-up's claim the time tested is its second clock reading, so its marker may be closer than 15 minutes by the gap between the two readings; on the webhook route the readings are one.
- Bursts.LatestHoldsCursor: one direction; a restored cursor may also fall back to the last delivery.
- RefKeys.RunsDontMix: assumes that no pushed ref is called by a name with a colon, which Git forbids; without it, the exact condition is RefKeys.SharedRun and RefKeys.NamedLikeAKey an input.
- CommitEvents.TwoDeliveries: for derived ids that fit; for cut ones CommitEvents.CutIdsDiffer says when two deliveries share one.
- SnapshotPipeline.PushDown: assumes the listing never reports a blob larger than it is, which `git ls-tree -l` guarantees.
- CommitEvents.DerivedIdsFit: commit ids longer than 64 characters, which the head column cannot store.
- SecretRotation.RotationHistory: rotations of one connection at strictly increasing times, starting from none.
- DistinctDeliveries.AlwaysReady: needs distinct delivery ids; the exact condition without them is FollowUps.StrandsExactly.
- Storage.Store.DeletePending: a linked run is kept because the events' foreign key refuses the delete.
- Concurrent transactions: they run one at a time, so the `IntegrityError` fallbacks are not reached, except the duplicate snapshot insert, which is modelled.
- The connection row: status, health, last success and failure times and the processed-event pointers; deliveries that raise because the connection or the payload is wrong change nothing.
- Columns nothing here depends on: `processed_at`, payload hashes, failure messages, archive paths, snapshot files.
- Commit events share the events table; they are modelled on their own because no decision, run or cursor reads them.
- `release_blocked`, which no service calls.
- The manual task's missing sync-run and connection arguments, and tasks with no event id.
- The Redis limiter, the GitLab copy of the limiter, the order of the limiter's dictionaries, and the lock around it.
- The rotation projection's delivery count, encryption and signature checks.
- The interleaving of the tree reader with the scan (only where a failing read stops differs), process timeouts and return codes.
- Git, SSH, Celery and Redis themselves, routing, schemas, templates, settings, migrations, URL parsing and regex constraints.
