/** The active scope version of a connection: created on first use, and from then on changed only by saving. */
module Scopes {
  import opened Model
  import opened Deciding
  import opened Transactions
  import opened World
  import Effects
  import RunHistory

  predicate SameScopes(s: State, s': State) { s'.scopes == s.scopes }

  lemma PlacedScopes(s: State, a: Arrival, e: Id, ref: Ref)
    requires e in s.events && a.payload.request.Some?
    ensures SameScopes(s, Park(s, a, e, ref).state) && SameScopes(s, Start(s, a, e, ref).state)
  {
  }

  lemma AttachScopes(s: State, a: Arrival, d: Decision, e: Id)
    requires e in s.events
    ensures SameScopes(s, Attach(s, a, d, e).state)
  {
    hide DispatchEvent, Park, Start;
    if a.payload.request.Some? { PlacedScopes(s, a, e, RequestedRef(a.payload)); }
  }

  lemma ProcessScopes(s: State, a: Arrival)
    ensures SameScopes(s, Process(s, a).state)
  {
    hide Record, Attach, EventOf, DecisionFor;
    Effects.RecordFrame(s, a);
    AttachScopes(Record(s, a), a, DecisionFor(s, a), EventOf(s, a));
  }

  lemma FailureScopes(s: State, e: Id, r: Id, now: Time)
    ensures SameScopes(s, FailWebhook(s, e, r, now))
  {
    hide RestoreCursor;
    var s1 := if r in s.runs && !IsTerminal(s.runs[r].status) then MarkFailed(s, r, SnapshotWriteFailed, now) else s;
    if LinkedTo(s, e, r) { Effects.RestoreOnlyCursors(UpdateEvent(s1, e, Decision.Queued, EventStatus.Failed, None), e); }
  }

  lemma FailedSendScopes(s: State, r: Id, now: Time)
    ensures SameScopes(s, DispatchFailed(s, r, now))
  {
    hide RestoreCursor;
    if r in s.runs && s.runs[r].trigger.Some? && s.runs[r].trigger.value in s.events {
      var s2, d := MarkFailed(s, r, QueueDispatchFailed, now), s.runs[r].trigger.value;
      Effects.RestoreOnlyCursors(UpdateEvent(s2, d, Decision.Queued, EventStatus.Failed, Some(r)), d);
    }
  }

  lemma FollowUpScopes(s: State, r: Id, e: Option<Id>, t: FollowUpClock)
    ensures SameScopes(s, FollowUp(s, r, e, t).0)
  {
    hide AnotherActive, DispatchStale;
  }

  /** A connection's version survives a worker's transaction; one it has none of, only a build's scope step adds. */
  lemma WorkScopes(w: World, k: Worker, c: Choice, conn: Id)
    ensures var s' := DbAfter(w.db, w.queueConfigured, k, c);
      && (conn in w.db.scopes ==> conn in s'.scopes && s'.scopes[conn] == w.db.scopes[conn])
      && (conn !in w.db.scopes && conn in s'.scopes ==>
            && k.phase.Scoping? && !c.outcome.Error? && s'.scopes == w.db.scopes[conn := c.newId]
            && (k.task.run in w.db.runs ==> w.db.runs[k.task.run].ref.conn == conn))
  {
    hide FailWebhook, DispatchFailed, FollowUp, CommitOutcomeOf;
    var r, now := k.task.run, c.clock.check;
    match k.phase
    case Failing => FailureScopes(w.db, if k.task.WebhookTask? then k.task.event else 0, r, now);
    case DispatchFailing(next) => FailedSendScopes(w.db, next, now);
    case FollowingUp => FollowUpScopes(w.db, r, TaskEvent(k.task), c.clock);
    case _ =>
  }

  lemma RouteScopes(w: World, st: Step)
    requires Enabled(w, st) && !st.Deliver? && !st.Work?
    ensures Next(w, st).db.scopes == if st.SaveScopeRules? then w.db.scopes[st.conn := st.newScope] else w.db.scopes
  {
    hide Next, ManualAllowed, Claimable, Cancellable;
    RunHistory.RouteDb(w, st);
  }

  predicate Saves(st: Step, conn: Id) { st.SaveScopeRules? && st.conn == conn }

  /** Only saving changes the version a connection has. */
  lemma NextKeepsScope(w: World, st: Step, conn: Id)
    requires Enabled(w, st) && conn in w.db.scopes && !Saves(st, conn)
    ensures conn in Next(w, st).db.scopes && Next(w, st).db.scopes[conn] == w.db.scopes[conn]
  {
    hide AfterDelivery, AfterWork, Process, DbAfter;
    if st.Deliver? {
      RunHistory.AfterDeliveryDb(w, st.arrival, st.version);
      ProcessScopes(w.db, st.arrival);
    } else if st.Work? {
      RunHistory.AfterWorkDb(w, st.worker, st.choice);
      WorkScopes(w, w.workers[st.worker], st.choice, conn);
    } else {
      RouteScopes(w, st);
    }
  }

  /** Once a connection has an active version, only saving another one for that connection changes it. */
  lemma {:induction false} VersionStays(ws: seq<World>, steps: seq<Step>, i: nat, j: nat, conn: Id)
    requires Execution(ws, steps) && i <= j < |ws| && conn in ws[i].db.scopes
    requires forall m :: i <= m < j ==> !(steps[m].SaveScopeRules? && steps[m].conn == conn)
    ensures conn in ws[j].db.scopes && ws[j].db.scopes[conn] == ws[i].db.scopes[conn]
    decreases j - i
  {
    hide Enabled, Next;
    if i < j {
      VersionStays(ws, steps, i, j - 1, conn);
      NextKeepsScope(ws[j - 1], steps[j - 1], conn);
    }
  }
}
