/** Which deliveries share a run: a pull or merge request by its own target key, a push by the name of its ref. */
module RefKeys {
  import opened Model
  import opened Deciding
  import opened Transactions
  import opened Invariant
  import opened World
  import opened Reachable
  import Effects
  import Steps
  import Safety
  import RunHistory
  import DistinctDeliveries

  /** The run a delivery is attached to is about the delivery's own target. */
  lemma DeliveryRun(w: World, a: Arrival, version: Option<nat>)
    requires Sound(w) && CanDeliver(w, a, version)
    ensures var p := Process(w.db, a);
      p.run.Some? ==> p.run.value in p.state.runs && IsAbout(a.payload, p.state.runs[p.run.value].ref)
  {
    hide Sound, Inv, Process, Effects.Evolves, RequestedRef, IsAbout;
    Steps.InvOf(w);
    Steps.DeliveryAdmissible(w, a, version);
    Effects.ProcessEvolves(w.db, a);
    if a.payload.request.Some? { RequestedIsAbout(a.payload); }
  }

  /** What event `e` was delivered with. */
  ghost predicate DeliveredAs(w: World, e: Id, p: Payload) {
    && e in w.db.events && w.db.events[e].delivery in w.payloads && w.payloads[w.db.events[e].delivery] == p
    && p.key == w.db.events[e].delivery && p.targetKey == w.db.events[e].targetKey
  }

  /** In every reachable world a run is about the target of every event that was ever linked to it. */
  lemma LinkedIsAbout(ws: seq<World>, steps: seq<Step>, i: nat, e: Id, r: Id) returns (p: Payload)
    requires Execution(ws, steps) && i < |ws| && (e, r) in ws[i].links && r in ws[i].db.runs
    ensures DeliveredAs(ws[i], e, p) && IsAbout(p, ws[i].db.runs[r].ref)
  {
    hide Execution, Sound, RequestedRef, IsAbout;
    Safety.AlwaysSound(ws, steps, i);
    LinkAsks(ws[i], e, r);
    p := ws[i].payloads[ws[i].db.events[e].delivery];
    RequestedIsAbout(p);
  }

  lemma LinkAsks(w: World, e: Id, r: Id)
    requires Sound(w) && (e, r) in w.links && r in w.db.runs
    ensures AsksFor(w.db.events, w.payloads, e, w.db.runs[r].ref) && PayloadOf(w.db.events, w.payloads, e)
  {
    hide Inv, LinksCover, MessagesSound, AnnouncedSound, BegunSound, BuiltSound, WorkersSound, RequestedRef;
  }

  /** Two payloads are about one target: the same key of their own, or default refs of one name, or one's own key is
      spelt like the name of the other's default ref. */
  predicate SameTarget(p: Payload, q: Payload) {
    if OwnKey(p.targetKey) && OwnKey(q.targetKey) then p.targetKey == q.targetKey
    else if OwnKey(p.targetKey) then p.targetKey == NameOf(q)
    else if OwnKey(q.targetKey) then q.targetKey == NameOf(p)
    else NameOf(p) == NameOf(q)
  }

  lemma AboutOne(p: Payload, q: Payload, ref: Ref)
    requires IsAbout(p, ref) && p.key.conn == q.key.conn && q.request.Some?
    ensures IsAbout(q, ref) <==> p.request.value.refType == q.request.value.refType && SameTarget(p, q)
  {
  }

  /** In any run of the protocol, events that were ever linked to one run are of one connection, one kind of ref and one
      target. */
  lemma SharedRun(ws: seq<World>, steps: seq<Step>, i: nat, e: Id, d: Id, r: Id) returns (p: Payload, q: Payload)
    requires Execution(ws, steps) && i < |ws| && r in ws[i].db.runs && (e, r) in ws[i].links && (d, r) in ws[i].links
    ensures DeliveredAs(ws[i], e, p) && DeliveredAs(ws[i], d, q)
    ensures p.request.Some? && q.request.Some? && p.key.conn == q.key.conn
    ensures p.request.value.refType == q.request.value.refType && SameTarget(p, q)
  {
    hide Execution, SameTarget;
    p := LinkedIsAbout(ws, steps, i, e, r);
    q := LinkedIsAbout(ws, steps, i, d, r);
    AboutOne(p, q, ws[i].db.runs[r].ref);
  }

  // ---- what the parsers deliver ----------------------------------------------------------

  predicate StartsWith(s: string, prefix: string) { |prefix| <= |s| && s[..|prefix|] == prefix }

  /** The fields the parsers set together: a push is about a default ref with a name, a pull request about "pr:" and its
      number, a merge request about "mr:" and its number. No name of a Git ref holds a colon (section "DESCRIPTION" of
      git-check-ref-format). */
  predicate Parsed(p: Payload) {
    p.request.Some? ==>
      match p.eventType
      case Push => p.targetKey == "default_ref" && p.request.value.refName.Some? && ':' !in NameOf(p)
      case PullRequest => StartsWith(p.targetKey, "pr:") && p.request.value.refType.PullRequestBranch?
      case MergeRequest => StartsWith(p.targetKey, "mr:") && p.request.value.refType.Branch?
      case _ => false
  }

  lemma ParsedTargets(p: Payload, q: Payload)
    requires Parsed(p) && Parsed(q) && p.request.Some? && q.request.Some?
    ensures SameTarget(p, q) <==>
      p.targetKey == q.targetKey && (p.targetKey == "default_ref" ==> p.request.value.refName == q.request.value.refName)
  {
    if !p.eventType.Push? { ColonAt(p); }
    if !q.eventType.Push? { ColonAt(q); }
    assert "default_ref"[2] == 'f';
  }

  lemma ColonAt(p: Payload)
    requires Parsed(p) && p.request.Some? && !p.eventType.Push?
    ensures |p.targetKey| > 2 && p.targetKey[2] == ':' && ':' in p.targetKey
  {
    assert p.targetKey[..3][2] == ':';
  }

  ghost predicate AllParsed(payloads: map<DeliveryKey, Payload>) { forall k :: k in payloads ==> Parsed(payloads[k]) }

  lemma NextParsed(w: World, st: Step)
    requires Enabled(w, st) && AllParsed(w.payloads) && (st.Deliver? ==> Parsed(st.arrival.payload))
    ensures AllParsed(Next(w, st).payloads)
  {
    hide AfterDelivery, AfterWork, CanDeliver, Parsed, Links;
    if st.Deliver? {
      RunHistory.DeliveryHistory(w, st.arrival, st.version);
    } else if st.Work? {
      RunHistory.WorkHistory(w, st.worker, st.choice);
    } else {
      DistinctDeliveries.RoutePayloads(w, st);
    }
  }

  lemma {:induction false} AlwaysParsed(ws: seq<World>, steps: seq<Step>, i: nat)
    requires Execution(ws, steps) && i < |ws|
    requires forall m :: 0 <= m < i && steps[m].Deliver? ==> Parsed(steps[m].arrival.payload)
    ensures AllParsed(ws[i].payloads)
  {
    hide Enabled, Next, Parsed;
    if i > 0 {
      AlwaysParsed(ws, steps, i - 1);
      NextParsed(ws[i - 1], steps[i - 1]);
    }
  }

  /** With payloads as the parsers make them, two events ever linked to one run have the same target key, and two pushes
      name the same ref: no two pull or merge requests share a run, even if their branches have one name. */
  lemma RunsDontMix(ws: seq<World>, steps: seq<Step>, i: nat, e: Id, d: Id, r: Id)
    requires Execution(ws, steps) && i < |ws| && r in ws[i].db.runs && (e, r) in ws[i].links && (d, r) in ws[i].links
    requires forall m :: 0 <= m < i && steps[m].Deliver? ==> Parsed(steps[m].arrival.payload)
    ensures e in ws[i].db.events && d in ws[i].db.events
    ensures ws[i].db.events[e].targetKey == ws[i].db.events[d].targetKey
    ensures ws[i].db.events[e].targetKey == "default_ref" ==>
      exists p, q :: DeliveredAs(ws[i], e, p) && DeliveredAs(ws[i], d, q) && p.request.Some? && q.request.Some?
                     && p.request.value.refName == q.request.value.refName
  {
    hide Execution, SameTarget, Parsed;
    var p, q := SharedRun(ws, steps, i, e, d, r);
    AlwaysParsed(ws, steps, i);
    assert DeliveredAs(ws[i], e, p) && DeliveredAs(ws[i], d, q);
    ParsedTargets(p, q);
  }

  /** The spelling does matter: a push to a branch named like a merge request's key is about that merge request's ref,
      though the target keys differ. */
  lemma NamedLikeAKey(conn: Id) returns (p: Payload, q: Payload)
    ensures p.request.Some? && q.request.Some? && p.key.conn == q.key.conn == conn && p.targetKey != q.targetKey
    ensures q.targetKey == "default_ref" && NameOf(q) == p.targetKey && RequestedRef(p) == RequestedRef(q)
    ensures Parsed(p) && !Parsed(q)
  {
    p := Payload(DeliveryKey(conn, UuidHeader, "a"), GitLab, MergeRequest, Some("open"), "mr:7", Some("b"),
                 Some(Request(Branch, Some("topic"), WebhookMergeRequest)), true);
    q := Payload(DeliveryKey(conn, UuidHeader, "c"), GitLab, EventType.Push, None, "default_ref", Some("d"),
                 Some(Request(Branch, Some("mr:7"), WebhookPush)), true);
    assert NameOf(q)[2] == ':';
  }
}
