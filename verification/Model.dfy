/** The three tables of the sync-run protocol (events, sync runs, head cursors), the snapshot
    and scope tables they touch, and the row lookups the repositories run against them. */
module Model {
  type Id = nat
  type Time = int // whole microseconds, the resolution of the stored datetimes
  type Sha = string

  const MINUTE: Time := 60_000_000
  const RETRY_AFTER: Time := 15 * MINUTE

  datatype Option<+T> = None | Some(value: T)

  datatype RefType = Branch | Tag | PullRequestBranch
  datatype Ref = Ref(conn: Id, kind: RefType, key: string)
  datatype Origin = ManualInitial | ManualRefresh | WebhookPush | WebhookPullRequest | WebhookMergeRequest
  datatype RunStatus = Blocked | Pending | Running | Failed | Succeeded
  datatype FailureCode =
    AuthFailed | RefNotFound | NoIncludedFiles | MirrorSyncFailed | SnapshotWriteFailed | QueueDispatchFailed
  datatype Decision = RecordOnly | Queued | DuplicateDelivery | DuplicateHead | StaleHead | Rejected
  datatype EventStatus = Received | Validated | Queued | Completed | Failed | Rejected
  datatype IdempotencySource = DeliveryHeader | UuidHeader | DerivedHash

  datatype DeliveryKey = DeliveryKey(conn: Id, source: IdempotencySource, id: string)
  datatype CursorKey = CursorKey(conn: Id, targetKey: string)

  datatype Event = Event(
    delivery: DeliveryKey, targetKey: string, head: Option<Sha>, receivedAt: Time,
    decision: Decision, status: EventStatus, run: Option<Id>, snapshot: Option<Id>)

  datatype Run = Run(
    ref: Ref, origin: Origin, trigger: Option<Id>, status: RunStatus, startedAt: Time,
    dispatchedAt: Option<Time>, completedAt: Option<Time>, resolved: Option<Sha>, failure: Option<FailureCode>)

  datatype Cursor = Cursor(head: Sha, event: Id)
  datatype Snapshot = Snapshot(run: Id, scope: Id, commit: Sha)

  /** `deliveries` is the unique index on (connection, idempotency source, delivery id);
      `scopes` is each connection's active scope rule version; `issued` holds every id handed out. */
  datatype State = State(
    events: map<Id, Event>, deliveries: map<DeliveryKey, Id>, runs: map<Id, Run>,
    cursors: map<CursorKey, Cursor>, snapshots: map<Id, Snapshot>, scopes: map<Id, Id>, issued: set<Id>)

  const EMPTY := State(map[], map[], map[], map[], map[], map[], {})

  predicate IsManual(o: Origin) { o.ManualInitial? || o.ManualRefresh? }

  function StatusRank(st: RunStatus): nat {
    match st case Blocked => 0 case Pending => 1 case Running => 2 case Failed => 3 case Succeeded => 4
  }

  predicate IsActive(st: RunStatus) { st.Pending? || st.Running? }
  predicate IsTerminal(st: RunStatus) { st.Failed? || st.Succeeded? }

  // ---- ordered lookups -------------------------------------------------------------------

  predicate After(t1: Time, id1: Id, t2: Time, id2: Id) { t1 > t2 || (t1 == t2 && id1 > id2) }

  predicate Matches(run: Run, ref: Ref, status: RunStatus) { run.ref == ref && run.status == status }

  predicate IsLatest(runs: map<Id, Run>, ref: Ref, status: RunStatus, r: Id) {
    && r in runs && Matches(runs[r], ref, status)
    && forall q :: q in runs && q != r && Matches(runs[q], ref, status) ==>
                     After(runs[r].startedAt, r, runs[q].startedAt, q)
  }

  predicate IsEarliest(runs: map<Id, Run>, ref: Ref, status: RunStatus, r: Id) {
    && r in runs && Matches(runs[r], ref, status)
    && forall q :: q in runs && q != r && Matches(runs[q], ref, status) ==>
                     After(runs[q].startedAt, q, runs[r].startedAt, r)
  }

  /** A finite table with a matching row has a latest and an earliest one. */
  lemma {:induction false} ExtremesExist(runs: map<Id, Run>, ref: Ref, status: RunStatus, r: Id)
    requires r in runs && Matches(runs[r], ref, status)
    ensures exists q :: IsLatest(runs, ref, status, q)
    ensures exists q :: IsEarliest(runs, ref, status, q)
    decreases |runs|
  {
    var rest := map q | q in runs && q != r :: runs[q];
    assert rest.Keys == runs.Keys - {r};
    assert forall q :: q in runs && q != r ==> q in rest && rest[q] == runs[q];
    if q :| q in rest && Matches(rest[q], ref, status) {
      ExtremesExist(rest, ref, status, q);
      var hi :| IsLatest(rest, ref, status, hi);
      var lo :| IsEarliest(rest, ref, status, lo);
      assert IsLatest(runs, ref, status, if After(runs[r].startedAt, r, runs[hi].startedAt, hi) then r else hi);
      assert IsEarliest(runs, ref, status, if After(runs[lo].startedAt, lo, runs[r].startedAt, r) then r else lo);
    } else {
      assert IsLatest(runs, ref, status, r) && IsEarliest(runs, ref, status, r);
    }
  }

  /** `ORDER BY started_at DESC, id DESC LIMIT 1` over the rows of one ref and status. */
  function Latest(runs: map<Id, Run>, ref: Ref, status: RunStatus): (o: Option<Id>)
    ensures o.Some? ==> IsLatest(runs, ref, status, o.value)
    ensures o.None? ==> forall q :: q in runs ==> !Matches(runs[q], ref, status)
  {
    if exists r :: r in runs && IsLatest(runs, ref, status, r) then
      var r :| r in runs && IsLatest(runs, ref, status, r); Some(r)
    else
      assert forall q :: q in runs ==> !Matches(runs[q], ref, status) by {
        forall q | q in runs && Matches(runs[q], ref, status) ensures false {
          ExtremesExist(runs, ref, status, q);
        }
      }
      None
  }

  /** `ORDER BY started_at ASC, id ASC LIMIT 1` over the rows of one ref and status. */
  function Earliest(runs: map<Id, Run>, ref: Ref, status: RunStatus): (o: Option<Id>)
    ensures o.Some? ==> IsEarliest(runs, ref, status, o.value)
    ensures o.None? ==> forall q :: q in runs ==> !Matches(runs[q], ref, status)
  {
    if exists r :: r in runs && IsEarliest(runs, ref, status, r) then
      var r :| r in runs && IsEarliest(runs, ref, status, r); Some(r)
    else
      assert forall q :: q in runs ==> !Matches(runs[q], ref, status) by {
        forall q | q in runs && Matches(runs[q], ref, status) ensures false {
          ExtremesExist(runs, ref, status, q);
        }
      }
      None
  }

  /** `list_for_connection` order: received_at descending, then id descending. */
  predicate NewestFirst(events: map<Id, Event>, list: seq<Id>)
  {
    && (forall i :: 0 <= i < |list| ==> list[i] in events)
    && forall i, j :: 0 <= i < j < |list| ==>
         events[list[i]].receivedAt > events[list[j]].receivedAt
         || (events[list[i]].receivedAt == events[list[j]].receivedAt && list[i] > list[j])
  }

  /** `e` may take over the cursor of `targetKey` once `failed` has failed. */
  predicate Eligible(ev: Event, e: Id, conn: Id, targetKey: string, failed: Id) {
    && ev.delivery.conn == conn && e != failed && ev.targetKey == targetKey && ev.head.Some?
    && ev.decision.Queued? && !ev.status.Failed? && ev.run.Some?
  }

  ghost predicate IsNewestEligible(events: map<Id, Event>, conn: Id, targetKey: string, failed: Id, e: Id) {
    && e in events && Eligible(events[e], e, conn, targetKey, failed)
    && forall q :: q in events && q != e && Eligible(events[q], q, conn, targetKey, failed) ==>
                     After(events[e].receivedAt, e, events[q].receivedAt, q)
  }

  lemma {:induction false} NewestEligibleExists(
    events: map<Id, Event>, conn: Id, targetKey: string, failed: Id, e: Id)
    requires e in events && Eligible(events[e], e, conn, targetKey, failed)
    ensures exists q :: IsNewestEligible(events, conn, targetKey, failed, q)
    decreases |events|
  {
    var rest := map q | q in events && q != e :: events[q];
    assert rest.Keys == events.Keys - {e};
    assert forall q :: q in events && q != e ==> q in rest && rest[q] == events[q];
    if q :| q in rest && Eligible(rest[q], q, conn, targetKey, failed) {
      NewestEligibleExists(rest, conn, targetKey, failed, q);
      var hi :| IsNewestEligible(rest, conn, targetKey, failed, hi);
      assert IsNewestEligible(events, conn, targetKey, failed,
        if After(events[e].receivedAt, e, events[hi].receivedAt, hi) then e else hi);
    } else {
      assert IsNewestEligible(events, conn, targetKey, failed, e);
    }
  }

  /** The event the cursor of `targetKey` falls back to when `failed` fails. */
  ghost function NewestEligible(events: map<Id, Event>, conn: Id, targetKey: string, failed: Id): (o: Option<Id>)
    ensures o.Some? ==> IsNewestEligible(events, conn, targetKey, failed, o.value)
    ensures o.None? ==> forall q :: q in events ==> !Eligible(events[q], q, conn, targetKey, failed)
  {
    if exists e :: IsNewestEligible(events, conn, targetKey, failed, e) then
      var e :| IsNewestEligible(events, conn, targetKey, failed, e); Some(e)
    else
      assert forall q :: q in events ==> !Eligible(events[q], q, conn, targetKey, failed) by {
        forall q | q in events && Eligible(events[q], q, conn, targetKey, failed) ensures false {
          NewestEligibleExists(events, conn, targetKey, failed, q);
        }
      }
      None
  }
}
