/**
 The durable event outbox: three tables and the transactions over them.

 Every function below is one transaction of the SQLite backend, from the tables before it to
 the tables after it. Subscription ids are digests in the source; they are kept apart here by
 what is digested, so two ids are equal exactly when their inputs are. Row ids, occurrence ids
 and lease tokens are random UUIDs; `used` holds the ones drawn so far.
 */
module Outbox {
  import opened Wrappers

  type Uuid = nat

  const WILDCARD := "*"

  datatype SourceKind = EnvWebhook | McpSubscription | OtherKind(name: string)

  datatype SubId = EnvSub(owner: string) | UrlSub(owner: string, url: string)

  datatype Subscription = Subscription(
    kind: SourceKind, eventType: string, target: string, fingerprint: string, owner: string,
    url: Bytes, secret: Bytes, oldSecret: Option<Bytes>, oldSecretExpiresAt: Option<int>,
    arguments: Bytes, expiresAt: Option<int>, active: bool)

  datatype Occurrence = Occurrence(eventId: string, owner: string, kind: string, expiresAt: int)

  datatype Status = Pending | Retry | Leased | Delivered | DeadLetter

  datatype ErrorCategory =
    | HttpRetryable | HttpPermanent | Transport | UnsafeDestination
    | InvalidSecret | InvalidPayload | RequestTooLarge

  datatype Row = Row(
    occurrence: Uuid, subscription: SubId, payload: Bytes, status: Status, attempts: nat,
    leaseToken: Option<Uuid>, leaseUntil: Option<int>, availableAt: int, expiresAt: int,
    createdAt: int, lastHttpStatus: Option<nat>, lastError: Option<ErrorCategory>,
    lastAttemptAt: Option<int>)

  datatype Store = Store(
    subs: map<SubId, Subscription>, occs: map<Uuid, Occurrence>, rows: map<Uuid, Row>,
    used: set<Uuid>)

  const EMPTY := Store(map[], map[], map[], {})

  predicate Terminal(status: Status) { status.Delivered? || status.DeadLetter? }

  predicate Unexpired(expiresAt: Option<int>, now: int) { expiresAt.None? || expiresAt.value > now }

  function Min(a: int, b: int): int { if a <= b then a else b }

  // ---- subscriptions ----

  /** An id that is already stored may be rewritten only by its owner for the same agent. */
  predicate UpsertAllowed(s: Store, id: SubId, sub: Subscription)
  {
    id in s.subs ==> s.subs[id].owner == sub.owner && s.subs[id].target == sub.target
  }

  function Upsert(s: Store, id: SubId, sub: Subscription): Store
  {
    if UpsertAllowed(s, id, sub) then s.(subs := s.subs[id := sub]) else s
  }

  function Find(s: Store, id: SubId): Option<Subscription> { if id in s.subs then Some(s.subs[id]) else None }

  predicate Owns(s: Store, id: SubId, owner: string) { id in s.subs && s.subs[id].owner == owner }

  function Deactivate(s: Store, id: SubId, owner: string): Store
  {
    if Owns(s, id, owner) then s.(subs := s.subs[id := s.subs[id].(active := false)]) else s
  }

  predicate RevokedBy(sub: Subscription, owner: string, fingerprint: string)
  {
    sub.owner == owner && sub.active && sub.fingerprint != fingerprint
  }

  function RevokeExcept(s: Store, owner: string, fingerprint: string): Store
  {
    s.(subs := map id | id in s.subs ::
         if RevokedBy(s.subs[id], owner, fingerprint) then s.subs[id].(active := false) else s.subs[id])
  }

  predicate Live(sub: Subscription, owner: string, now: int)
  {
    sub.owner == owner && sub.active && Unexpired(sub.expiresAt, now)
  }

  // ---- publish ----

  predicate Matches(sub: Subscription, owner: string, eventType: string, now: int)
  {
    Live(sub, owner, now) && sub.target == owner &&
    (sub.eventType == WILDCARD || sub.eventType == eventType)
  }

  function Matching(s: Store, owner: string, eventType: string, now: int): set<SubId>
  {
    set id | id in s.subs && Matches(s.subs[id], owner, eventType, now)
  }

  predicate HasEvent(s: Store, eventId: string)
  {
    exists o | o in s.occs :: s.occs[o].eventId == eventId
  }

  predicate FansOut(s: Store, occ: Occurrence, eventType: string, now: int)
  {
    Matching(s, occ.owner, eventType, now) != {} && !HasEvent(s, occ.eventId)
  }

  function NewRow(occId: Uuid, occ: Occurrence, sub: SubId, payload: Bytes, now: int): Row
  {
    Row(occId, sub, payload, Pending, 0, None, None, 0, occ.expiresAt, now, None, None, None)
  }

  /** `drawn` gives every matching subscription exactly one fresh row id. */
  ghost predicate Assigns(s: Store, occId: Uuid, drawn: map<Uuid, SubId>, subs: set<SubId>)
  {
    && occId !in s.used && occId !in drawn && drawn.Keys !! s.used
    && (forall r <- drawn :: drawn[r] in subs)
    && (forall id <- subs :: exists r :: r in drawn && drawn[r] == id)
    && (forall r1, r2 | r1 in drawn && r2 in drawn && drawn[r1] == drawn[r2] :: r1 == r2)
  }

  function Publish(s: Store, occId: Uuid, occ: Occurrence, payload: Bytes, eventType: string,
                   now: int, drawn: map<Uuid, SubId>): Store
  {
    if FansOut(s, occ, eventType, now) then
      s.(occs := s.occs[occId := occ],
         rows := s.rows + map r | r in drawn :: NewRow(occId, occ, drawn[r], payload, now),
         used := s.used + {occId} + drawn.Keys)
    else s
  }

  // ---- claim ----

  datatype Query = Query(owner: string, fingerprint: string, now: int, leaseUntil: int,
                         token: Uuid, kind: Option<SourceKind>)

  predicate Claimable(s: Store, q: Query, r: Uuid)
  {
    && r in s.rows
    && var row := s.rows[r];
    && !Terminal(row.status) && row.availableAt <= q.now
    && (row.leaseUntil.None? || row.leaseUntil.value <= q.now) && row.expiresAt > q.now
    && row.occurrence in s.occs && row.subscription in s.subs
    && var sub := s.subs[row.subscription];
    && Live(sub, q.owner, q.now) && sub.fingerprint == q.fingerprint
    && (q.kind.None? || sub.kind == q.kind.value)
  }

  /** ORDER BY available_at, id. */
  predicate Before(s: Store, a: Uuid, b: Uuid)
    requires a in s.rows && b in s.rows
  {
    s.rows[a].availableAt < s.rows[b].availableAt ||
    (s.rows[a].availableAt == s.rows[b].availableAt && a <= b)
  }

  ghost predicate IsNext(s: Store, q: Query, r: Uuid)
  {
    Claimable(s, q, r) && forall other | Claimable(s, q, other) :: Before(s, r, other)
  }

  ghost function NextRow(s: Store, q: Query): Option<Uuid>
  {
    if exists r :: IsNext(s, q, r) then
      var r :| IsNext(s, q, r); Some(r)
    else None
  }

  function LeasedRow(row: Row, q: Query): Row
  {
    row.(status := Leased, leaseToken := Some(q.token), leaseUntil := Some(q.leaseUntil),
         attempts := row.attempts + 1, lastAttemptAt := Some(q.now))
  }

  ghost function Claim(s: Store, q: Query): Store
  {
    match NextRow(s, q)
    case None => s.(used := s.used + {q.token})
    case Some(r) => s.(rows := s.rows[r := LeasedRow(s.rows[r], q)], used := s.used + {q.token})
  }

  /** What a claim hands to the worker: the row after the update, its event and its subscription. */
  datatype Item = Item(id: Uuid, occurrence: Uuid, eventId: string, payload: Bytes, attempts: nat,
                       token: Uuid, subId: SubId, sub: Subscription)

  function ItemOf(s: Store, q: Query, r: Uuid): Item
    requires Claimable(s, q, r)
  {
    var row := s.rows[r];
    Item(r, row.occurrence, s.occs[row.occurrence].eventId, row.payload, row.attempts + 1, q.token,
         row.subscription, s.subs[row.subscription])
  }

  ghost function Claimed(s: Store, q: Query): Option<Item>
  {
    match NextRow(s, q)
    case None => None
    case Some(r) => Some(ItemOf(s, q, r))
  }

  // ---- complete ----

  datatype DeliveryResult =
    | WasDelivered(http: nat, at: int)
    | WantsRetry(httpStatus: Option<nat>, category: ErrorCategory, nextAt: int, at: int)
    | WantsDeadLetter(httpStatus: Option<nat>, category: ErrorCategory, at: int)

  function Outcome(result: DeliveryResult, attempts: nat, maxAttempts: int): Status
  {
    match result
    case WasDelivered(_, _) => Delivered
    case WantsRetry(_, _, _, _) => if attempts >= maxAttempts then DeadLetter else Retry
    case WantsDeadLetter(_, _, _) => DeadLetter
  }

  predicate HoldsLease(s: Store, r: Uuid, token: Uuid)
  {
    r in s.rows && s.rows[r].leaseToken == Some(token) && s.rows[r].status == Leased
  }

  function CompletedRow(row: Row, result: DeliveryResult, maxAttempts: int): Row
  {
    row.(status := Outcome(result, row.attempts, maxAttempts),
         availableAt := if result.WantsRetry? then result.nextAt else 0,
         lastHttpStatus := if result.WasDelivered? then Some(result.http) else result.httpStatus,
         lastError := if result.WasDelivered? then None else Some(result.category),
         lastAttemptAt := Some(result.at), leaseToken := None, leaseUntil := None)
  }

  function Complete(s: Store, r: Uuid, token: Uuid, result: DeliveryResult, maxAttempts: int): Store
  {
    if HoldsLease(s, r, token) then
      s.(rows := s.rows[r := CompletedRow(s.rows[r], result, maxAttempts)])
    else s
  }

  // ---- cancel and cleanup ----

  /** The rows of the cancelled subscriptions expire at `now` at the latest. */
  function CancelAll(s: Store, ids: set<SubId>, now: int): Store
  {
    s.(subs := map id | id in s.subs :: if id in ids then s.subs[id].(active := false) else s.subs[id],
       rows := map r | r in s.rows ::
         if s.rows[r].subscription in ids then s.rows[r].(expiresAt := Min(s.rows[r].expiresAt, now))
         else s.rows[r])
  }

  function Cancel(s: Store, id: SubId, owner: string, now: int): Store
  {
    if Owns(s, id, owner) then CancelAll(s, {id}, now) else s
  }

  function OfKind(s: Store, kind: SourceKind): set<SubId>
  {
    set id | id in s.subs && s.subs[id].kind == kind
  }

  function CancelKind(s: Store, kind: SourceKind, now: int): Store
  {
    CancelAll(s, OfKind(s, kind), now)
  }

  predicate SubKept(sub: Subscription, now: int) { Unexpired(sub.expiresAt, now) }

  /** A row survives when it, its occurrence and its subscription all do. */
  predicate RowKept(s: Store, row: Row, now: int)
  {
    && row.expiresAt > now
    && (row.occurrence in s.occs ==> s.occs[row.occurrence].expiresAt > now)
    && (row.subscription in s.subs ==> SubKept(s.subs[row.subscription], now))
  }

  function Cleanup(s: Store, now: int): Store
  {
    s.(subs := map id | id in s.subs && SubKept(s.subs[id], now) :: s.subs[id],
       occs := map o | o in s.occs && s.occs[o].expiresAt > now :: s.occs[o],
       rows := map r | r in s.rows && RowKept(s, s.rows[r], now) :: s.rows[r])
  }

  // ---- any transaction ----

  datatype Op =
    | Idle
    | DoUpsert(id: SubId, sub: Subscription)
    | DoDeactivate(id: SubId, owner: string)
    | DoRevokeExcept(owner: string, fingerprint: string)
    | DoPublish(occId: Uuid, occ: Occurrence, payload: Bytes, eventType: string, now: int,
                drawn: map<Uuid, SubId>)
    | DoClaim(q: Query)
    | DoComplete(row: Uuid, token: Uuid, result: DeliveryResult, maxAttempts: int)
    | DoCancel(id: SubId, owner: string, now: int)
    | DoCancelKind(kind: SourceKind, now: int)
    | DoCleanup(now: int)

  /** Ids handed to a transaction were never drawn before. */
  ghost predicate Ready(s: Store, op: Op)
  {
    match op
    case DoPublish(occId, occ, _, eventType, now, drawn) =>
      FansOut(s, occ, eventType, now) ==> Assigns(s, occId, drawn, Matching(s, occ.owner, eventType, now))
    case DoClaim(q) => q.token !in s.used
    case _ => true
  }

  ghost function Next(s: Store, op: Op): Store
  {
    match op
    case Idle => s
    case DoUpsert(id, sub) => Upsert(s, id, sub)
    case DoDeactivate(id, owner) => Deactivate(s, id, owner)
    case DoRevokeExcept(owner, fingerprint) => RevokeExcept(s, owner, fingerprint)
    case DoPublish(occId, occ, payload, eventType, now, drawn) =>
      Publish(s, occId, occ, payload, eventType, now, drawn)
    case DoClaim(q) => Claim(s, q)
    case DoComplete(row, token, result, maxAttempts) => Complete(s, row, token, result, maxAttempts)
    case DoCancel(id, owner, now) => Cancel(s, id, owner, now)
    case DoCancelKind(kind, now) => CancelKind(s, kind, now)
    case DoCleanup(now) => Cleanup(s, now)
  }

  /** The row a transaction leases, if it is a claim that found one. */
  ghost predicate Leases(s: Store, op: Op, r: Uuid)
  {
    op.DoClaim? && NextRow(s, op.q) == Some(r)
  }

  /** The transaction is a completion the store accepts. */
  predicate Completes(s: Store, op: Op)
  {
    op.DoComplete? && HoldsLease(s, op.row, op.token)
  }
}
