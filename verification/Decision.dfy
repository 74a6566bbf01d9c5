/** How one verified delivery is classified, before anything is written. */
module Deciding {
  import opened Model

  datatype Provider = GitHub | GitLab
  datatype EventType = Push | PullRequest | MergeRequest | Ping | Unknown

  /** The sync a payload asks for. The parsers set ref type, ref name and trigger type together. */
  datatype Request = Request(refType: RefType, refName: Option<string>, origin: Origin)

  /** What a delivery says. A repeated delivery id carries the same payload. */
  datatype Payload = Payload(
    key: DeliveryKey, provider: Provider, eventType: EventType, action: Option<string>,
    targetKey: string, head: Option<Sha>, request: Option<Request>, codeMoving: bool)

  /** What the service reads about the outside world while it handles a delivery. */
  datatype Observation = Observation(
    onDefaultRef: bool, currentHead: Option<Sha>, connectionActive: bool, foreignFork: bool)

  const PULL_REQUEST_ACTIONS := {"opened", "reopened", "synchronize", "ready_for_review"}
  const MERGE_REQUEST_ACTIONS := {"open", "opened", "reopen", "reopened", "update", "updated"}

  datatype DecisionInput = DecisionInput(
    eventType: EventType, action: Option<string>, head: Option<Sha>, alreadySeen: bool,
    cursorHead: Option<Sha>, currentHead: Option<Sha>, retryable: bool, codeMoving: bool)

  predicate ActionIn(action: Option<string>, allowed: set<string>) { action.Some? && action.value in allowed }

  function DecideGitHub(i: DecisionInput): Decision {
    if i.alreadySeen && !i.retryable then Decision.DuplicateDelivery
    else if i.eventType.PullRequest? && !ActionIn(i.action, PULL_REQUEST_ACTIONS) then Decision.RecordOnly
    else if i.eventType.Ping? then Decision.RecordOnly
    else if i.head.None? then Decision.RecordOnly
    else if !i.retryable && i.cursorHead == i.head then Decision.DuplicateHead
    else if i.currentHead.Some? && i.head != i.currentHead then Decision.StaleHead
    else Decision.Queued
  }

  function DecideProvider(i: DecisionInput): Decision {
    if i.alreadySeen && !i.retryable then Decision.DuplicateDelivery
    else if i.eventType.PullRequest? && !ActionIn(i.action, PULL_REQUEST_ACTIONS) then Decision.RecordOnly
    else if i.eventType.MergeRequest? && (!ActionIn(i.action, MERGE_REQUEST_ACTIONS) || !i.codeMoving) then
      Decision.RecordOnly
    else if i.eventType.Ping? then Decision.RecordOnly
    else if i.head.None? then Decision.RecordOnly
    else if !i.retryable && i.cursorHead == i.head then Decision.DuplicateHead
    else if i.currentHead.Some? && i.head != i.currentHead then Decision.StaleHead
    else Decision.Queued
  }

  /** A push that is not to the connection's default ref is handled as a ping. */
  function EffectiveType(p: Payload, o: Observation): EventType {
    if p.eventType.Push? && !o.onDefaultRef then Ping else p.eventType
  }

  function CodeMoving(p: Payload, cursorHead: Option<Sha>): bool {
    if !p.eventType.MergeRequest? then p.codeMoving
    else if ActionIn(p.action, {"open", "opened", "reopen", "reopened"}) then true
    else if !ActionIn(p.action, {"update", "updated"}) then false
    else p.codeMoving || (cursorHead.Some? && p.head != cursorHead)
  }

  function Decide(p: Payload, o: Observation, alreadySeen: bool, cursorHead: Option<Sha>, retryable: bool): Decision {
    var i := DecisionInput(EffectiveType(p, o), p.action, p.head, alreadySeen, cursorHead, o.currentHead,
                           retryable, CodeMoving(p, cursorHead));
    match p.provider
    case GitHub => DecideGitHub(i)
    case GitLab =>
      if !o.connectionActive || (p.eventType.MergeRequest? && o.foreignFork) then Decision.RecordOnly
      else DecideProvider(i)
  }

  function RefKeyOf(targetKey: string, refName: Option<string>): string {
    if targetKey != "" && targetKey != "default_ref" then targetKey
    else if refName.Some? then refName.value else ""
  }

  /** The ref a delivery is coalesced on: a pull or merge request by its own key, a push by ref name. */
  function RequestedRef(p: Payload): Ref
    requires p.request.Some?
  {
    Ref(p.key.conn, p.request.value.refType, RefKeyOf(p.targetKey, p.request.value.refName))
  }

  /** Whether a target key says more than that the delivery is about some default ref. */
  predicate OwnKey(targetKey: string) { targetKey != "" && targetKey != "default_ref" }

  function NameOf(p: Payload): string {
    if p.request.Some? && p.request.value.refName.Some? then p.request.value.refName.value else ""
  }

  /** The payload asks for `ref`: connection and kind are its own; the key is its target key or, for a default ref, its
      ref's name. */
  predicate IsAbout(p: Payload, ref: Ref) {
    && p.request.Some? && ref.conn == p.key.conn && ref.kind == p.request.value.refType
    && (OwnKey(p.targetKey) ==> ref.key == p.targetKey)
    && (p.targetKey == "" || p.targetKey == "default_ref" ==> ref.key == NameOf(p))
  }

  lemma RequestedIsAbout(p: Payload)
    requires p.request.Some?
    ensures IsAbout(p, RequestedRef(p))
  {
  }

  /** The delivery's provider takes it no further than recording it, whatever its head. */
  predicate OnlyRecorded(p: Payload, o: Observation, cursorHead: Option<Sha>) {
    || p.eventType.Ping? || (p.eventType.Push? && !o.onDefaultRef)
    || (p.eventType.PullRequest? && (p.action.None? ||
          p.action.value !in {"opened", "reopened", "synchronize", "ready_for_review"}))
    || (p.provider.GitLab? && p.eventType.MergeRequest? && !MovesCode(p, cursorHead))
  }

  /** A merge request is opened or reopened, or updated with new code: as the payload says, or because its head is not
      the one last seen. */
  predicate MovesCode(p: Payload, cursorHead: Option<Sha>) {
    && p.action.Some?
    && (p.action.value in {"open", "opened", "reopen", "reopened"}
        || (p.action.value in {"update", "updated"} && (p.codeMoving || (cursorHead.Some? && cursorHead != p.head))))
  }

  /** The delivery asks for a build that is worth doing: it is not only recorded, and names the current head. */
  predicate Worthwhile(p: Payload, o: Observation, cursorHead: Option<Sha>) {
    && !TurnedAway(p, o) && !OnlyRecorded(p, o, cursorHead) && p.head.Some?
    && (o.currentHead.None? || o.currentHead == p.head)
  }

  /** GitLab deliveries to an inactive connection or from a foreign fork, recorded before anything else is asked. */
  predicate TurnedAway(p: Payload, o: Observation) {
    p.provider.GitLab? && (!o.connectionActive || (p.eventType.MergeRequest? && o.foreignFork))
  }

  /** Each decision, by what is asked first: repeated, recorded, duplicate head, stale head, queued. */
  lemma DecidedExactly(p: Payload, o: Observation, seen: bool, cursorHead: Option<Sha>, retryable: bool)
    ensures var d := Decide(p, o, seen, cursorHead, retryable);
      var repeated := seen && !retryable;
      var recorded := TurnedAway(p, o) || (!repeated && (p.head.None? || OnlyRecorded(p, o, cursorHead)));
      var moved := !retryable && cursorHead == p.head;
      var stale := o.currentHead.Some? && p.head != o.currentHead;
      && (d.RecordOnly? <==> recorded)
      && (d.DuplicateDelivery? <==> !recorded && repeated)
      && (d.DuplicateHead? <==> !recorded && !repeated && moved)
      && (d.StaleHead? <==> !recorded && !repeated && !moved && stale)
      && (d.Queued? <==> !recorded && !repeated && !moved && !stale)
  {
  }
}
