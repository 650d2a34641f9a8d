/**
 The event service above the store: delivery ticks on two lanes, subscribe, unsubscribe, revoke, the
 environment webhook and publish, interleaved step by step.

 A task is one asynchronous call; its constructor is its program counter. Each step runs up to the
 next point where another task can get in: a lock, a clock reading inside a blocking closure, one
 store transaction, one post. Locks are derived from the program counters: a task holds a lock
 exactly while its counter says so. A request that is dropped leaves a submitted store call running
 on its own (`attached == false`). A restart ends all of them and opens the service on the same store.
 */
module Service {
  import opened Wrappers
  import opened Outbox
  import opened DeliveryPolicy
  import opened Rotation

  const LEASE_SECONDS := 30
  const RETENTION_SECONDS := 30 * 24 * 60 * 60

  /** The canonical arguments, an empty JSON object. */
  const NO_ARGUMENTS: Bytes := [123, 125]

  type TaskId = nat

  /** `url` names the callback; `callback` is the same text as stored bytes. */
  datatype Request = Request(url: string, callback: Bytes, secret: Bytes, ttlMs: Option<int>)

  datatype EnvConfig = EnvConfig(callback: Bytes, secret: Option<Bytes>, generated: Bytes)

  datatype Event = Event(eventId: string, eventType: string, name: string, body: Bytes)

  /** What the in-memory cache remembers of a subscription. */
  datatype Entry = Entry(eventType: string, target: string, expiresAt: Option<int>)

  datatype Task =
    // delivery_tick
    | TickStart(lane: Option<SourceKind>)
    | TickSweeping(lane: Option<SourceKind>, now: int)
    | TickReady(lane: Option<SourceKind>)
    | TickClaiming(lane: Option<SourceKind>, now: int)
    | TickPosting(lane: Option<SourceKind>, item: Item)
    | TickCompleting(lane: Option<SourceKind>, item: Item, result: DeliveryResult)
    // subscribe
    | SubStart(req: Request)
    | SubVerifying(req: Request)
    | SubSweeping(req: Request, now: int)
    | SubReading(req: Request, now: int)
    | SubGranting(req: Request, now: int, previous: Option<Subscription>)
    | SubWriting(id: SubId, sub: Subscription, now: int, attached: bool)
    | SubWritten(id: SubId, entry: Entry, now: int)
    // unsubscribe
    | UnsubStart(id: SubId)
    | UnsubLocked(id: SubId, attached: bool)
    | UnsubCancelling(id: SubId, now: int, attached: bool)
    | UnsubDone(id: SubId)
    // revoke_mcp_subscriptions
    | RevokeStart
    | RevokeWaiting
    | RevokeLocked(attached: bool)
    | RevokeCancelling(now: int, attached: bool)
    | RevokeDone(ids: set<SubId>)
    // apply_env_webhook
    | EnvStart(config: Option<EnvConfig>)
    | EnvReading(settings: EnvConfig, now: int)
    | EnvWriting(id: SubId, sub: Subscription, now: int)
    | EnvWritten(id: SubId, entry: Entry)
    | EnvStopping(id: SubId)
    | EnvStopped(id: SubId)
    // publish
    | PubStart(event: Event)
    | PubChecking(event: Event, now: int)
    | PubDating(event: Event)
    | PubReady(event: Event, occ: Occurrence)
    | PubWriting(event: Event, occ: Occurrence, now: int)

  datatype Machine = Machine(
    owner: string, fingerprint: string, clockMs: int, store: Store, cache: map<SubId, Entry>,
    tasks: map<TaskId, Task>,
    /** Bookkeeping for the proofs: ids written by a call that will not update the cache. */
    dirty: set<SubId>)

  function Now(m: Machine): int { m.clockMs / 1000 }

  // ---- locks ----

  predicate Gated(lane: Option<SourceKind>) { lane != Some(EnvWebhook) }

  /** Holds `subscription_lifecycle` for reading. */
  predicate HoldsRead(t: Task)
  {
    match t
    case TickSweeping(lane, _) => Gated(lane)
    case TickReady(lane) => Gated(lane)
    case TickClaiming(lane, _) => Gated(lane)
    case TickPosting(lane, _) => Gated(lane)
    case TickCompleting(lane, _, _) => Gated(lane)
    case _ => Subscribing(t)
  }

  predicate Subscribing(t: Task)
  {
    t.SubVerifying? || t.SubSweeping? || t.SubReading? || t.SubGranting? || t.SubWriting?
  }

  /** Holds `subscription_lifecycle` for writing. */
  predicate HoldsWrite(t: Task)
  {
    match t
    case RevokeLocked(attached) => attached
    case RevokeCancelling(_, attached) => attached
    case _ => t.RevokeWaiting? || t.RevokeDone?
  }

  /** Holds the mutex around the subscription cache. */
  predicate HoldsCache(t: Task)
  {
    match t
    case SubWriting(_, _, _, attached) => attached
    case UnsubLocked(_, attached) => attached
    case UnsubCancelling(_, _, attached) => attached
    case RevokeLocked(attached) => attached
    case RevokeCancelling(_, attached) => attached
    case _ => t.SubSweeping? || t.SubReading? || t.SubGranting? || t.SubWritten? || t.UnsubDone? || t.RevokeDone?
  }

  predicate EnvTask(t: Task)
  {
    t.EnvStart? || t.EnvReading? || t.EnvWriting? || t.EnvWritten? || t.EnvStopping? || t.EnvStopped?
  }

  predicate NoReader(m: Machine) { forall i <- m.tasks :: !HoldsRead(m.tasks[i]) }

  predicate NoWriter(m: Machine) { forall i <- m.tasks :: !HoldsWrite(m.tasks[i]) }

  predicate CacheFree(m: Machine) { forall i <- m.tasks :: !HoldsCache(m.tasks[i]) }

  // ---- values the steps compute ----

  function Clamped(ms: int): int { Clamp(ms, 1000, 24 * 60 * 60 * 1000) }

  function EntryOf(sub: Subscription): Entry { Entry(sub.eventType, sub.target, sub.expiresAt) }

  function Lookup(m: Machine, id: SubId): Option<Subscription> { Find(m.store, id) }

  /** The row subscribe writes. */
  function Granted(m: Machine, req: Request, now: int, previous: Option<Subscription>): Subscription
  {
    var (oldSecret, until) := RotationProof(previous, req.secret, now);
    Subscription(McpSubscription, WILDCARD, m.owner, m.fingerprint, m.owner, req.callback, req.secret, oldSecret,
      until, NO_ARGUMENTS,
                 if req.ttlMs.None? then None else Some((m.clockMs + Clamped(req.ttlMs.value)) / 1000), true)
  }

  /** A subscription without a requested lifetime never ends. With one, it ends in the second that many
      milliseconds from now, or in a second or a day when less or more was asked for. */
  lemma GrantedLifetime(m: Machine, req: Request, now: int, previous: Option<Subscription>)
    ensures var until := Granted(m, req, now, previous).expiresAt;
      && (until.Some? <==> req.ttlMs.Some?)
      && (until.Some? ==> Now(m) < until.value <= Now(m) + 24 * 60 * 60)
      && (until.Some? && 1000 <= req.ttlMs.value <= 86400000 ==>
            until.value * 1000 <= m.clockMs + req.ttlMs.value < until.value * 1000 + 1000)
      && (until.Some? && req.ttlMs.value < 1000 ==> until.value == Now(m) + 1)
      && (until.Some? && req.ttlMs.value > 86400000 ==> until.value == Now(m) + 86400)
  {
  }

  /** The row the environment webhook writes. */
  function EnvRow(m: Machine, config: EnvConfig, now: int): Subscription
  {
    var previous := Lookup(m, EnvSub(m.owner));
    var secret :=
      if config.secret.Some? then config.secret.value
      else if previous.Some? && previous.value.active then previous.value.secret
      else config.generated;
    var (oldSecret, until) := RotationProof(previous, secret, now);
    Subscription(EnvWebhook, WILDCARD, m.owner, m.fingerprint, m.owner, config.callback, secret, oldSecret, until,
      NO_ARGUMENTS, None, true)
  }

  /** The environment webhook uses the configured secret; without one it keeps the secret of an active
      webhook, and with it every signature; and only without both it generates one. */
  lemma EnvSecretSurvivesRestart(m: Machine, config: EnvConfig, now: int)
    ensures var before, after := Lookup(m, EnvSub(m.owner)), EnvRow(m, config, now);
      && (config.secret.Some? ==> after.secret == config.secret.value)
      && (config.secret.None? && (before.None? || !before.value.active) ==> after.secret == config.generated)
      && (config.secret.None? && before.Some? && before.value.active ==>
            after.secret == before.value.secret && forall t | t >= now :: Signers(after, t) == Signers(before.value, t))
  {
  }

  /** The cached check that lets publish return early. */
  predicate Interested(m: Machine, eventType: string, now: int)
  {
    exists id | id in m.cache ::
      && m.cache[id].target == m.owner && Unexpired(m.cache[id].expiresAt, now)
      && (m.cache[id].eventType == WILDCARD || m.cache[id].eventType == eventType)
  }

  // ---- one step of one task ----

  /** What the outside decides in a step: fresh ids and the outcome of a post. */
  datatype Input = Input(token: Uuid, outcome: Result<nat, Failure>, drawn: map<Uuid, SubId>)

  function LaneQuery(m: Machine, lane: Option<SourceKind>, now: int, token: Uuid): Query
  {
    Query(m.owner, m.fingerprint, now, now + LEASE_SECONDS, token, lane)
  }

  /** The store transaction of the step. */
  function OpOf(m: Machine, t: Task, x: Input): Op
  {
    match t
    case TickSweeping(_, now) => DoCleanup(now)
    case TickClaiming(lane, now) => DoClaim(LaneQuery(m, lane, now, x.token))
    case TickCompleting(_, item, result) => DoComplete(item.id, item.token, result, MAX_ATTEMPTS)
    case SubSweeping(_, now) => DoCleanup(now)
    case SubWriting(id, sub, _, _) => DoUpsert(id, sub)
    case UnsubCancelling(id, now, _) => DoCancel(id, m.owner, now)
    case RevokeCancelling(now, _) => DoCancelKind(McpSubscription, now)
    case EnvWriting(id, sub, _) => DoUpsert(id, sub)
    case EnvStopping(id) => DoDeactivate(id, m.owner)
    case PubWriting(event, occ, now) => DoPublish(x.token, occ, event.body, event.eventType, now, x.drawn)
    case _ => Idle
  }

  /** Locks the step has to get, and freshness of the ids it is given. */
  ghost predicate Allowed(m: Machine, t: Task, x: Input)
  {
    && Ready(m.store, OpOf(m, t, x))
    && match t
       case TickStart(lane) => Gated(lane) ==> NoWriter(m)
       case SubStart(_) => NoWriter(m)
       case SubVerifying(_) => CacheFree(m)
       case UnsubStart(_) => CacheFree(m)
       case RevokeStart => NoReader(m) && NoWriter(m)
       case RevokeWaiting => CacheFree(m)
       case EnvWritten(_, _) => CacheFree(m)
       case EnvStopped(_) => CacheFree(m)
       case PubChecking(_, _) => CacheFree(m)
       case _ => true
  }

  /** Where a task stands after its step; None when it has returned. */
  ghost function After(m: Machine, t: Task, x: Input): Option<Task>
  {
    match t
    case TickStart(lane) => Some(TickSweeping(lane, Now(m)))
    case TickSweeping(lane, _) => Some(TickReady(lane))
    case TickReady(lane) => Some(TickClaiming(lane, Now(m)))
    case TickClaiming(lane, now) =>
      var item := Claimed(m.store, LaneQuery(m, lane, now, x.token));
      if item.None? then None else Some(TickPosting(lane, item.value))
    case TickPosting(lane, item) => Some(TickCompleting(lane, item, Classify(x.outcome, item.attempts, Now(m))))
    case TickCompleting(_, _, _) => None
    case SubStart(req) => Some(SubVerifying(req))
    case SubVerifying(req) => Some(SubSweeping(req, Now(m)))
    case SubSweeping(req, now) => Some(SubReading(req, now))
    case SubReading(req, now) => Some(SubGranting(req, now, Lookup(m, UrlSub(m.owner, req.url))))
    case SubGranting(req, now, previous) =>
      Some(SubWriting(UrlSub(m.owner, req.url), Granted(m, req, now, previous), now, true))
    case SubWriting(id, sub, now, attached) =>
      if attached && UpsertAllowed(m.store, id, sub) then Some(SubWritten(id, EntryOf(sub), now)) else None
    case SubWritten(_, _, _) => None
    case UnsubStart(id) => Some(UnsubLocked(id, true))
    case UnsubLocked(id, attached) => Some(UnsubCancelling(id, Now(m), attached))
    case UnsubCancelling(id, _, attached) => if attached then Some(UnsubDone(id)) else None
    case UnsubDone(_) => None
    case RevokeStart => Some(RevokeWaiting)
    case RevokeWaiting => Some(RevokeLocked(true))
    case RevokeLocked(attached) => Some(RevokeCancelling(Now(m), attached))
    case RevokeCancelling(_, attached) =>
      if attached then Some(RevokeDone(OfKind(m.store, McpSubscription))) else None
    case RevokeDone(_) => None
    case EnvStart(config) =>
      if config.Some? then Some(EnvReading(config.value, Now(m))) else Some(EnvStopping(EnvSub(m.owner)))
    case EnvReading(config, now) => Some(EnvWriting(EnvSub(m.owner), EnvRow(m, config, now), now))
    case EnvWriting(id, sub, _) =>
      if UpsertAllowed(m.store, id, sub) then Some(EnvWritten(id, EntryOf(sub))) else None
    case EnvWritten(_, _) => None
    case EnvStopping(id) => Some(EnvStopped(id))
    case EnvStopped(_) => None
    case PubStart(event) => Some(PubChecking(event, Now(m)))
    case PubChecking(event, now) => if Interested(m, event.eventType, now) then Some(PubDating(event)) else None
    case PubDating(event) =>
      Some(PubReady(event, Occurrence(event.eventId, m.owner, event.name, Now(m) + RETENTION_SECONDS)))
    case PubReady(event, occ) => Some(PubWriting(event, occ, Now(m)))
    case PubWriting(_, _, _) => None
  }

  /** The cache update of the step. */
  function CacheAfter(m: Machine, t: Task): map<SubId, Entry>
  {
    match t
    case SubWritten(id, entry, now) =>
      (map k | k in m.cache && Unexpired(m.cache[k].expiresAt, now) :: m.cache[k])[id := entry]
    case EnvWritten(id, entry) => m.cache[id := entry]
    case UnsubDone(id) => m.cache - {id}
    case EnvStopped(id) => m.cache - {id}
    case RevokeDone(ids) => m.cache - ids
    case _ => m.cache
  }

  /** Ids the step writes in the store. */
  function Written(m: Machine, t: Task): set<SubId>
  {
    match t
    case SubWriting(id, sub, _, _) => if UpsertAllowed(m.store, id, sub) then {id} else {}
    case UnsubCancelling(id, _, _) => {id}
    case RevokeCancelling(_, _) => OfKind(m.store, McpSubscription)
    case EnvWriting(id, sub, _) => if UpsertAllowed(m.store, id, sub) then {id} else {}
    case EnvStopping(id) => {id}
    case _ => {}
  }

  /** A call whose cache update will never come. */
  predicate Detached(t: Task)
  {
    match t
    case SubWriting(_, _, _, attached) => !attached
    case UnsubCancelling(_, _, attached) => !attached
    case RevokeCancelling(_, attached) => !attached
    case _ => false
  }

  /** The call was not dropped. */
  predicate Attached(t: Task)
  {
    match t
    case SubWriting(_, _, _, attached) => attached
    case UnsubLocked(_, attached) => attached
    case UnsubCancelling(_, _, attached) => attached
    case RevokeLocked(attached) => attached
    case RevokeCancelling(_, attached) => attached
    case _ => true
  }

  function DirtyAfter(m: Machine, t: Task): set<SubId>
  {
    if Detached(t) then m.dirty + Written(m, t) else m.dirty - Written(m, t)
  }

  // ---- dropping a call ----

  function Dropped(t: Task): Option<Task>
  {
    match t
    case SubWriting(id, sub, now, _) => Some(SubWriting(id, sub, now, false))
    case UnsubLocked(id, _) => Some(UnsubLocked(id, false))
    case UnsubCancelling(id, now, _) => Some(UnsubCancelling(id, now, false))
    case RevokeLocked(_) => Some(RevokeLocked(false))
    case RevokeCancelling(now, _) => Some(RevokeCancelling(now, false))
    case _ => None
  }

  /** Ids a dropped call leaves out of step with the cache. */
  function LeftBehind(t: Task): set<SubId>
  {
    match t
    case SubWritten(id, _, _) => {id}
    case UnsubDone(id) => {id}
    case RevokeDone(ids) => ids
    case EnvWritten(id, _) => {id}
    case EnvStopped(id) => {id}
    case _ => {}
  }

  // ---- the machine ----

  /** The service as `open` leaves it: other credentials revoked, the cache filled, nothing running. */
  ghost function Open(store: Store, owner: string, fingerprint: string, clockMs: int): Machine
  {
    var s := RevokeExcept(store, owner, fingerprint);
    Machine(owner, fingerprint, clockMs, s,
            map id | id in s.subs && Live(s.subs[id], owner, clockMs / 1000) :: EntryOf(s.subs[id]), map[], {})
  }

  datatype Action =
    | Advance(ms: nat)
    | Begin(task: TaskId, call: Task)
    | Step(task: TaskId, x: Input)
    | Drop(task: TaskId)
    /** The process ends, whatever it was doing, and the service is opened again on the same store. */
    | Restart(credential: string, ms: nat)

  predicate Fresh(t: Task)
  {
    t.TickStart? || t.SubStart? || t.UnsubStart? || t.RevokeStart? || t.EnvStart? || t.PubStart?
  }

  ghost predicate Enabled(m: Machine, a: Action)
  {
    match a
    case Advance(_) => true
    case Begin(i, t) =>
      && i !in m.tasks && Fresh(t)
      && (t.UnsubStart? ==> t.id.UrlSub? && t.id.owner == m.owner)
      && (EnvTask(t) ==> forall k <- m.tasks :: !EnvTask(m.tasks[k]))
    case Step(i, x) => i in m.tasks && Allowed(m, m.tasks[i], x)
    case Drop(i) => i in m.tasks
    case Restart(_, _) => true
  }

  function SetTask(tasks: map<TaskId, Task>, i: TaskId, t: Option<Task>): map<TaskId, Task>
  {
    if t.Some? then tasks[i := t.value] else tasks - {i}
  }

  function ActionOp(m: Machine, a: Action): Op
  {
    if a.Step? && a.task in m.tasks then OpOf(m, m.tasks[a.task], a.x)
    else if a.Restart? then DoRevokeExcept(m.owner, a.credential)
    else Idle
  }

  ghost function Apply(m: Machine, a: Action): Machine
    requires Enabled(m, a)
  {
    match a
    case Advance(ms) => m.(clockMs := m.clockMs + ms)
    case Begin(i, t) => m.(tasks := m.tasks[i := t])
    case Step(i, x) =>
      var t := m.tasks[i];
      m.(store := Next(m.store, OpOf(m, t, x)), cache := CacheAfter(m, t), dirty := DirtyAfter(m, t),
         tasks := SetTask(m.tasks, i, After(m, t, x)))
    case Drop(i) => m.(tasks := SetTask(m.tasks, i, Dropped(m.tasks[i])), dirty := m.dirty + LeftBehind(m.tasks[i]))
    case Restart(credential, ms) => Open(m.store, m.owner, credential, m.clockMs + ms)
  }
}
