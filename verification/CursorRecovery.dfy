/** The head cursors: what every reachable world keeps, and where a failure leaves them. */
module CursorRecovery {
  import opened Model
  import opened Transactions
  import opened Invariant
  import Effects
  import opened World
  import Reachable
  import Steps
  import Safety

  /** No cursor ever points at a FAILED event: it names a stored event of its own connection and target,
      carries exactly that event's head, and the event's status is not FAILED. */
  lemma CursorsNeverFailed(ws: seq<World>, steps: seq<Step>, i: nat, key: CursorKey)
    requires Execution(ws, steps) && i < |ws| && key in ws[i].db.cursors
    ensures var (db, c) := (ws[i].db, ws[i].db.cursors[key]);
      && c.event in db.events
      && db.events[c.event].delivery.conn == key.conn && db.events[c.event].targetKey == key.targetKey
      && db.events[c.event].head == Some(c.head) && !db.events[c.event].status.Failed?
  {
    hide Reachable.Sound, Inv, Execution;
    Safety.AlwaysSound(ws, steps, i);
    Steps.InvOf(ws[i]);
    CursorOf(ws[i].db, key);
  }

  /** The guards of the code alone keep at most one PENDING-or-RUNNING and one BLOCKED run per ref. */
  lemma OneActiveOneBlocked(ws: seq<World>, steps: seq<Step>, i: nat, q: Id, r: Id)
    requires Execution(ws, steps) && i < |ws| && q != r && q in ws[i].db.runs && r in ws[i].db.runs
    requires ws[i].db.runs[q].ref == ws[i].db.runs[r].ref
    ensures var runs := ws[i].db.runs;
      && !(IsActive(runs[q].status) && IsActive(runs[r].status))
      && !(runs[q].status.Blocked? && runs[r].status.Blocked?)
  {
    hide Reachable.Sound, Inv, Execution;
    Safety.AlwaysSound(ws, steps, i);
    Steps.InvOf(ws[i]);
    RunsOf(ws[i].db);
  }

  lemma RunsOf(s: State)
    requires Inv(s)
    ensures OnePerRef(s.runs)
  {
  }

  // ---- after a failure -------------------------------------------------------------------

  /** Event `e` can stand for the head of its target once `failed` has failed: another event of the same connection and
      target, with a head, queued, linked to a run and not FAILED. */
  predicate CanStandIn(events: map<Id, Event>, e: Id, key: CursorKey, failed: Id) {
    && e in events && e != failed && events[e].delivery.conn == key.conn && events[e].targetKey == key.targetKey
    && events[e].head.Some? && events[e].decision.Queued? && events[e].run.Some? && !events[e].status.Failed?
  }

  /** No event that can stand in was received later, nor at the same time with a larger id. */
  ghost predicate NewestStandIn(events: map<Id, Event>, e: Id, key: CursorKey, failed: Id) {
    && CanStandIn(events, e, key, failed)
    && forall q: Id :: CanStandIn(events, q, key, failed) && q != e ==>
         events[q].receivedAt < events[e].receivedAt || (events[q].receivedAt == events[e].receivedAt && q < e)
  }

  lemma StandInIs(events: map<Id, Event>, key: CursorKey, failed: Id)
    ensures forall e: Id :: CanStandIn(events, e, key, failed) <==>
      e in events && Eligible(events[e], e, key.conn, key.targetKey, failed)
    ensures forall e: Id :: NewestStandIn(events, e, key, failed) <==>
      IsNewestEligible(events, key.conn, key.targetKey, failed, e)
  {
  }

  lemma NewestIsUnique(events: map<Id, Event>, conn: Id, targetKey: string, failed: Id, a: Id, b: Id)
    requires IsNewestEligible(events, conn, targetKey, failed, a) && IsNewestEligible(events, conn, targetKey, failed, b)
    ensures a == b
  {
  }

  ghost predicate AnyEligible(events: map<Id, Event>, key: CursorKey, failed: Id) {
    exists e: Id :: CanStandIn(events, e, key, failed)
  }

  /** From `s` to `s'` the cursor of a failed event's target fell back to the newest eligible event by
      (received_at, id), if there is one; otherwise it is gone if it named the failed event, and as it was if
      it did not. No other cursor moved. */
  ghost predicate FellBack(s: State, s': State, key: CursorKey, failed: Id) {
    && (AnyEligible(s'.events, key, failed) ==>
          && key in s'.cursors && NewestStandIn(s'.events, s'.cursors[key].event, key, failed)
          && s'.events[s'.cursors[key].event].head == Some(s'.cursors[key].head))
    && (!AnyEligible(s'.events, key, failed) ==>
          if key in s.cursors && s.cursors[key].event != failed
          then key in s'.cursors && s'.cursors[key] == s.cursors[key]
          else key !in s'.cursors)
    && (forall k :: k != key ==> (k in s'.cursors <==> k in s.cursors))
    && (forall k :: k != key && k in s.cursors ==> s'.cursors[k] == s.cursors[k])
  }

  lemma RestoreFallsBack(s: State, failed: Id)
    requires failed in s.events
    ensures FellBack(s, RestoreCursor(s, failed), CursorKey(s.events[failed].delivery.conn,
      s.events[failed].targetKey), failed)
  {
    var key := CursorKey(s.events[failed].delivery.conn, s.events[failed].targetKey);
    hide Eligible, IsNewestEligible, CanStandIn, NewestStandIn, After;
    Effects.RestoreOnlyCursors(s, failed);
    StandInIs(s.events, key, failed);
    if e :| e in s.events && Eligible(s.events[e], e, key.conn, key.targetKey, failed) {
      NewestEligibleExists(s.events, key.conn, key.targetKey, failed, e);
    } else {
      assert !AnyEligible(s.events, key, failed);
    }
    NewestHead(s, key, failed);
  }

  lemma NewestHead(s: State, key: CursorKey, failed: Id)
    ensures forall e :: IsNewestEligible(s.events, key.conn, key.targetKey, failed, e) ==>
      e in s.events && s.events[e].head.Some?
  {
  }

  /** A webhook task's failure, for an event that is linked to its run. */
  lemma FailedTaskFallsBack(s: State, e: Id, r: Id, now: Time)
    requires LinkedTo(s, e, r) && !(r in s.runs && s.runs[r].status.Succeeded?)
    ensures var s' := FailWebhook(s, e, r, now);
      && e in s'.events && s'.events[e].status.Failed? && (r in s'.runs ==> s'.runs[r].status.Failed?)
      && FellBack(s, s', CursorKey(s.events[e].delivery.conn, s.events[e].targetKey), e)
  {
    hide RestoreCursor, FellBack;
    var s1 := if r in s.runs && !IsTerminal(s.runs[r].status) then MarkFailed(s, r, SnapshotWriteFailed, now) else s;
    var s2 := UpdateEvent(s1, e, Decision.Queued, EventStatus.Failed, None);
    RestoreFallsBack(s2, e);
    Effects.RestoreOnlyCursors(s2, e);
    SameStart(s, s2, RestoreCursor(s2, e), CursorKey(s.events[e].delivery.conn, s.events[e].targetKey), e);
  }

  /** A follow-up whose task could not be sent. */
  lemma FailedSendFallsBack(s: State, p: Id, e: Id, now: Time)
    requires p in s.runs && !s.runs[p].status.Succeeded? && s.runs[p].trigger == Some(e) && e in s.events
    ensures var s' := DispatchFailed(s, p, now);
      && e in s'.events && s'.events[e].status.Failed? && s'.events[e].run == Some(p) && s'.runs[p].status.Failed?
      && FellBack(s, s', CursorKey(s.events[e].delivery.conn, s.events[e].targetKey), e)
  {
    hide RestoreCursor, FellBack;
    var s1 := MarkFailed(s, p, QueueDispatchFailed, now);
    var s2 := UpdateEvent(s1, e, Decision.Queued, EventStatus.Failed, Some(p));
    RestoreFallsBack(s2, e);
    Effects.RestoreOnlyCursors(s2, e);
    SameStart(s, s2, RestoreCursor(s2, e), CursorKey(s.events[e].delivery.conn, s.events[e].targetKey), e);
  }

  lemma SameStart(s: State, s2: State, s': State, key: CursorKey, failed: Id)
    requires s2.cursors == s.cursors && FellBack(s2, s', key, failed)
    ensures FellBack(s, s', key, failed)
  {
  }
}
