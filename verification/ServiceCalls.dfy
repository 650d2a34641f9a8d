/** What each call commits to the store, whatever runs beside it: from the call's own arguments to the tables. */
module ServiceCalls {
  import opened Wrappers
  import opened Outbox
  import opened OutboxInvariants
  import opened OutboxRuns
  import opened OutboxHistory
  import opened Rotation
  import opened Service
  import opened ServiceInvariants
  import opened ServiceRuns

  // ---- a task still stands for the call it began as ----

  /** The row a subscribe call writes, apart from rotation and lifetime. */
  predicate RowFor(m: Machine, req: Request, sub: Subscription)
  {
    && sub.kind == McpSubscription && sub.eventType == "*" && sub.target == m.owner && sub.owner == m.owner
    && sub.fingerprint == m.fingerprint && sub.url == req.callback && sub.secret == req.secret && sub.active
    && sub.arguments == [123, 125] && (sub.expiresAt.Some? <==> req.ttlMs.Some?)
  }

  predicate EnvRowFor(m: Machine, config: EnvConfig, sub: Subscription)
  {
    && sub.kind == EnvWebhook && sub.eventType == "*" && sub.target == m.owner && sub.owner == m.owner
    && sub.fingerprint == m.fingerprint && sub.url == config.callback && sub.active && sub.expiresAt == None
    && sub.arguments == [123, 125]
    && (config.secret.Some? ==> sub.secret == config.secret.value)
  }

  /** The occurrence a publish writes, retained for thirty days from a reading between the two. */
  predicate OccurrenceFor(m: Machine, event: Service.Event, occ: Occurrence, since: int, now: int)
  {
    && occ.eventId == event.eventId && occ.owner == m.owner && occ.kind == event.name
    && since + 2592000 <= occ.expiresAt <= now + 2592000
  }

  /** Task t is the call, begun at reading `since`, some steps on: it has its arguments, and read its clock
      after it began. */
  predicate Serves(m: Machine, t: Task, call: Task, since: int)
  {
    since <= Now(m) && (Reading(t).Some? ==> since <= Reading(t).value <= Now(m)) && HasArguments(m, t, call, since)
  }

  predicate HasArguments(m: Machine, t: Task, call: Task, since: int)
  {
    match call
    case TickStart(lane) =>
      && (t.TickStart? || t.TickSweeping? || t.TickReady? || t.TickClaiming? || t.TickPosting? || t.TickCompleting?)
      && t.lane == lane
    case SubStart(req) =>
      (match t
       case SubWriting(id, sub, _, _) => id == UrlSub(m.owner, req.url) && RowFor(m, req, sub)
       case SubWritten(id, entry, _) =>
         id == UrlSub(m.owner, req.url) && entry.eventType == "*" && entry.target == m.owner
       case _ => (t.SubStart? || t.SubVerifying? || t.SubSweeping? || t.SubReading? || t.SubGranting?) && t.req == req)
    case UnsubStart(id) => (t.UnsubStart? || t.UnsubLocked? || t.UnsubCancelling? || t.UnsubDone?) && t.id == id
    case RevokeStart =>
      t.RevokeStart? || t.RevokeWaiting? || t.RevokeLocked? || t.RevokeCancelling? || t.RevokeDone?
    case EnvStart(config) =>
      (match t
       case EnvStart(c) => c == config
       case EnvReading(settings, _) => config == Some(settings)
       case EnvWriting(id, sub, _) => config.Some? && id == EnvSub(m.owner) && EnvRowFor(m, config.value, sub)
       case EnvWritten(id, _) => config.Some? && id == EnvSub(m.owner)
       case EnvStopping(id) => config.None? && id == EnvSub(m.owner)
       case EnvStopped(id) => config.None? && id == EnvSub(m.owner)
       case _ => false)
    case PubStart(event) =>
      (match t
       case PubReady(e, occ) => e == event && OccurrenceFor(m, event, occ, since, Now(m))
       case PubWriting(e, occ, now) => e == event && OccurrenceFor(m, event, occ, since, now)
       case _ => (t.PubStart? || t.PubChecking? || t.PubDating?) && t.event == event)
    case _ => false
  }

  lemma AfterSubscribe(m: Machine, t: Task, x: Input, call: Task, since: int)
    requires Serves(m, t, call, since) && After(m, t, x).Some? && call.SubStart?
    ensures HasArguments(m, After(m, t, x).value, call, since)
  {
    hide Claimed, Interested, UpsertAllowed, OfKind, Lookup, EnvRow, OccurrenceFor, RotationProof;
  }

  lemma AfterEnv(m: Machine, t: Task, x: Input, call: Task, since: int)
    requires Serves(m, t, call, since) && After(m, t, x).Some? && call.EnvStart?
    ensures HasArguments(m, After(m, t, x).value, call, since)
  {
    hide Claimed, Interested, UpsertAllowed, OfKind, Lookup, Granted, OccurrenceFor, RotationProof;
  }

  lemma AfterOther(m: Machine, t: Task, x: Input, call: Task, since: int)
    requires Serves(m, t, call, since) && After(m, t, x).Some? && !call.SubStart? && !call.EnvStart?
    ensures HasArguments(m, After(m, t, x).value, call, since)
  {
    hide Claimed, Interested, UpsertAllowed, OfKind, Lookup, Granted, EnvRow, RowFor, EnvRowFor;
  }

  lemma AfterServes(m: Machine, t: Task, x: Input, call: Task, since: int)
    requires Serves(m, t, call, since) && After(m, t, x).Some?
    ensures Serves(m, After(m, t, x).value, call, since)
  {
    hide Claimed, Interested, UpsertAllowed, OfKind, Lookup, HasArguments, Granted, EnvRow;
    if call.SubStart? {
      AfterSubscribe(m, t, x, call, since);
    } else if call.EnvStart? {
      AfterEnv(m, t, x, call, since);
    } else {
      AfterOther(m, t, x, call, since);
    }
  }

  lemma DroppedServes(m: Machine, t: Task, call: Task, since: int)
    requires Serves(m, t, call, since) && Dropped(t).Some?
    ensures Serves(m, Dropped(t).value, call, since)
  {
  }

  /** Only owner, credential and a clock that does not go back matter. */
  lemma ServesLater(m: Machine, m': Machine, t: Task, call: Task, since: int)
    requires Serves(m, t, call, since) && m'.owner == m.owner && m'.fingerprint == m.fingerprint && Now(m) <= Now(m')
    ensures Serves(m', t, call, since)
  {
  }

  lemma ServesStep(m: Machine, a: Action, k: TaskId, call: Task, since: int)
    requires Enabled(m, a) && k in m.tasks && Serves(m, m.tasks[k], call, since) && k in Apply(m, a).tasks
    requires !(a.Begin? && a.task == k)
    ensures Serves(Apply(m, a), Apply(m, a).tasks[k], call, since)
  {
    hide Allowed, After, Next, OpOf, CacheAfter, DirtyAfter, Serves, Dropped;
    var m' := Apply(m, a);
    ClockStep(m, a);
    if a.Step? && a.task == k { AfterServes(m, m.tasks[k], a.x, call, since); }
    if a.Drop? && a.task == k { DroppedServes(m, m.tasks[k], call, since); }
    ServesLater(m, m', m'.tasks[k], call, since);
  }

  /** The call that began as task k is still what task k does, in every state until it is gone. */
  lemma {:induction false} StillServes(ms: seq<Machine>, acts: seq<Action>, b: nat, n: nat, k: TaskId)
    requires IsServiceRun(ms, acts) && b < n < |ms| && acts[b].Begin? && acts[b].task == k
    requires forall i | b < i <= n :: k in ms[i].tasks
    ensures Serves(ms[n], ms[n].tasks[k], acts[b].call, Now(ms[b]))
    decreases n
  {
    hide ServiceInv, ItemsSound, Apply, Enabled, Serves, Now;
    assert Enabled(ms[n - 1], acts[n - 1]) && ms[n] == Apply(ms[n - 1], acts[n - 1]);
    if n == b + 1 {
      BeginServes(ms[b], acts[b]);
    } else {
      StillServes(ms, acts, b, n - 1, k);
      NotBegunTwice(ms[n - 1], acts[n - 1], k);
      ServesStep(ms[n - 1], acts[n - 1], k, acts[b].call, Now(ms[b]));
    }
  }

  lemma BeginServes(m: Machine, a: Action)
    requires Enabled(m, a) && a.Begin?
    ensures a.task in Apply(m, a).tasks && Serves(Apply(m, a), Apply(m, a).tasks[a.task], a.call, Now(m))
  {
  }

  lemma NotBegunTwice(m: Machine, a: Action, k: TaskId)
    requires Enabled(m, a) && k in m.tasks
    ensures !(a.Begin? && a.task == k)
  {
  }

  // ---- what a call commits ----

  /** The effect on the tables of the one transaction in which a call does its work. */
  ghost predicate Committed(m: Machine, t: Task, call: Task, since: int, s: Store, s': Store)
  {
    match call
    case SubStart(req) =>
      var id := UrlSub(m.owner, req.url); t.SubWriting? ==> Stores(s, s', id) && RowFor(m, req, s'.subs[id])
    case EnvStart(Some(config)) =>
      var id := EnvSub(m.owner); t.EnvWriting? ==> Stores(s, s', id) && EnvRowFor(m, config, s'.subs[id])
    case EnvStart(None) => t.EnvStopping? ==> SwitchedOff(s, s', EnvSub(m.owner)) && s'.rows == s.rows
    case UnsubStart(id) =>
      t.UnsubCancelling? ==> since <= t.now <= Now(m) && SwitchedOff(s, s', id) && RowsLowered(s, s', {id}, t.now)
    case RevokeStart =>
      t.RevokeCancelling? ==> since <= t.now <= Now(m) && AllSwitchedOff(s, s') && RowsLowered(s, s', UrlIds(s), t.now)
    case PubStart(event) =>
      t.PubWriting? ==>
        && since <= t.now <= Now(m) && OccurrenceFor(m, event, t.occ, since, t.now)
        && PublishedTo(m, s, s', event, t.occ, t.now)
    case TickStart(lane) =>
      && (t.TickSweeping? ==> since <= t.now <= Now(m) && s' == Cleanup(s, t.now))
      && (t.TickClaiming? ==> since <= t.now <= Now(m) && ClaimedFor(m, s, s', lane, t.now))
    case _ => true
  }

  /** Only the row of id is written, and it is. */
  predicate Stores(s: Store, s': Store, id: SubId)
  {
    id in s'.subs && s' == s.(subs := s.subs[id := s'.subs[id]])
  }

  /** Only the row of id changes, and it ends up switched off if it is there. */
  predicate SwitchedOff(s: Store, s': Store, id: SubId)
  {
    && s'.occs == s.occs && s'.used == s.used && s'.subs.Keys == s.subs.Keys
    && forall k <- s.subs :: s'.subs[k] == if k == id then s.subs[k].(active := false) else s.subs[k]
  }

  predicate AllSwitchedOff(s: Store, s': Store)
  {
    && s'.occs == s.occs && s'.used == s.used && s'.subs.Keys == s.subs.Keys
    && forall k <- s.subs :: s'.subs[k] == if k.UrlSub? then s.subs[k].(active := false) else s.subs[k]
  }

  function UrlIds(s: Store): set<SubId> { set k | k in s.subs && k.UrlSub? }

  /** The rows of these subscriptions expire at `now` or earlier, and nothing else about rows changes. */
  predicate RowsLowered(s: Store, s': Store, ids: set<SubId>, now: int)
  {
    && s'.rows.Keys == s.rows.Keys
    && forall r <- s.rows ::
         if s.rows[r].subscription in ids && s.rows[r].subscription in s.subs && s.rows[r].expiresAt > now
         then s'.rows[r] == s.rows[r].(expiresAt := now) else s'.rows[r] == s.rows[r]
  }

  /** Somebody listens and the event is new: its occurrence is added, and for every subscription that
      listens, and no other, one row with its body, waiting, due at once and expiring with it. Otherwise
      nothing happens. */
  ghost predicate PublishedTo(m: Machine, s: Store, s': Store, event: Service.Event, occ: Occurrence, now: int)
  {
    if (exists id :: Listens(s, id, m.owner, event.eventType, now)) && IsNew(s, event.eventId) then
      exists o ::
        && o !in s.used && s'.occs == s.occs[o := occ] && s'.subs == s.subs
        && FannedOut(m.owner, s, s', event, o, occ, now)
    else s' == s
  }

  predicate IsNew(s: Store, eventId: string) { forall o <- s.occs :: s.occs[o].eventId != eventId }

  ghost predicate FannedOut(
    owner: string, s: Store, s': Store, event: Service.Event, o: Uuid, occ: Occurrence, now: int)
  {
    && (forall r <- s.rows :: r in s'.rows && s'.rows[r] == s.rows[r])
    && (forall r | r in s'.rows && r !in s.rows ::
          && Listens(s, s'.rows[r].subscription, owner, event.eventType, now)
          && s'.rows[r] == Row(o, s'.rows[r].subscription, event.body, Pending, 0, None, None, 0, occ.expiresAt, now,
                               None, None, None))
    && (forall id | Listens(s, id, owner, event.eventType, now) :: OneNewRow(s, s', id))
  }

  predicate Listens(s: Store, id: SubId, owner: string, eventType: string, now: int)
  {
    && id in s.subs && s.subs[id].active && s.subs[id].owner == owner && s.subs[id].target == owner
    && (s.subs[id].expiresAt.Some? ==> s.subs[id].expiresAt.value > now)
    && (s.subs[id].eventType == "*" || s.subs[id].eventType == eventType)
  }

  ghost predicate OneNewRow(s: Store, s': Store, id: SubId)
  {
    exists r :: r in s'.rows && r !in s.rows && s'.rows[r].subscription == id
      && forall x | x in s'.rows && x !in s.rows && s'.rows[x].subscription == id :: x == r
  }

  /** A due row of the owner, under the service's credential and on the lane, if there is one, is leased
      for thirty seconds from the reading. */
  ghost predicate ClaimedFor(m: Machine, s: Store, s': Store, lane: Option<SourceKind>, now: int)
  {
    exists q: Query ::
      && q.owner == m.owner && q.fingerprint == m.fingerprint && q.now == now && q.leaseUntil == now + 30
      && q.kind == lane && q.token !in s.used && s' == Next(s, DoClaim(q))
  }

  lemma ListensIsMatching(s: Store, id: SubId, owner: string, eventType: string, now: int)
    ensures Listens(s, id, owner, eventType, now) <==> id in Matching(s, owner, eventType, now)
  {
  }

  lemma FanOutRows(owner: string, s: Store, op: Op, event: Service.Event)
    requires Inv(s) && op.DoPublish? && Ready(s, op) && FansOut(s, op.occ, op.eventType, op.now)
    requires op.occ.owner == owner && op.eventType == event.eventType && op.payload == event.body
    ensures FannedOut(owner, s, Next(s, op), event, op.occId, op.occ, op.now)
  {
    hide Inv, Listens, Matching, Next, FansOut, Assigns;
    var s' := Next(s, op);
    DrawnFresh(s, op);
    AddedRows(s, op);
    DrawnOnce(s, op);
    forall r | r in op.drawn ensures Listens(s, op.drawn[r], owner, event.eventType, op.now) {
      ListensIsMatching(s, op.drawn[r], owner, event.eventType, op.now);
    }
    forall id | Listens(s, id, owner, event.eventType, op.now) ensures OneNewRow(s, s', id) {
      ListensIsMatching(s, id, owner, event.eventType, op.now);
      var r :| r in op.drawn && op.drawn[r] == id;
      assert r in s'.rows && r !in s.rows && s'.rows[r].subscription == id;
    }
  }

  /** Waiting, never attempted, not leased, due at once, expiring with its occurrence. */
  function FirstRow(op: Op, id: SubId): Row
    requires op.DoPublish?
  {
    Row(op.occId, id, op.payload, Pending, 0, None, None, 0, op.occ.expiresAt, op.now, None, None, None)
  }

  lemma AddedRows(s: Store, op: Op)
    requires op.DoPublish? && FansOut(s, op.occ, op.eventType, op.now) && op.drawn.Keys !! s.rows.Keys
    ensures Next(s, op).rows.Keys == s.rows.Keys + op.drawn.Keys
    ensures forall r <- s.rows :: Next(s, op).rows[r] == s.rows[r]
    ensures forall r <- op.drawn :: Next(s, op).rows[r] == FirstRow(op, op.drawn[r])
  {
    hide FansOut;
  }

  lemma DrawnOnce(s: Store, op: Op)
    requires op.DoPublish? && Ready(s, op) && FansOut(s, op.occ, op.eventType, op.now)
    ensures forall r <- op.drawn :: op.drawn[r] in Matching(s, op.occ.owner, op.eventType, op.now)
    ensures forall id <- Matching(s, op.occ.owner, op.eventType, op.now) ::
      exists r :: r in op.drawn && op.drawn[r] == id
    ensures forall r1, r2 | r1 in op.drawn && r2 in op.drawn && op.drawn[r1] == op.drawn[r2] :: r1 == r2
  {
    hide FansOut, Matching;
  }

  lemma DrawnFresh(s: Store, op: Op)
    requires Inv(s) && op.DoPublish? && Ready(s, op) && FansOut(s, op.occ, op.eventType, op.now)
    ensures op.drawn.Keys !! s.rows.Keys
  {
    hide FansOut, Matching;
  }

  lemma FansOutMeans(s: Store, occ: Occurrence, eventType: string, now: int)
    ensures FansOut(s, occ, eventType, now) <==>
      (exists id :: Listens(s, id, occ.owner, eventType, now)) && IsNew(s, occ.eventId)
  {
    hide Listens, Matching;
    forall id ensures Listens(s, id, occ.owner, eventType, now) <==> id in Matching(s, occ.owner, eventType, now) {
      ListensIsMatching(s, id, occ.owner, eventType, now);
    }
  }

  lemma PublishCommits(m: Machine, a: Action)
    requires Inv(m.store) && Enabled(m, a) && a.Step? && m.tasks[a.task].PubWriting?
    requires var t := m.tasks[a.task]; t.occ.eventId == t.event.eventId && t.occ.owner == m.owner
    ensures var t := m.tasks[a.task]; PublishedTo(m, m.store, Apply(m, a).store, t.event, t.occ, t.now)
  {
    hide Inv, Listens, Matching, FannedOut, FansOut, IsNew, CacheAfter, DirtyAfter, After;
    var t, s, op := m.tasks[a.task], m.store, ActionOp(m, a);
    FansOutMeans(s, t.occ, t.event.eventType, t.now);
    if FansOut(s, t.occ, t.event.eventType, t.now) { FanOutRows(m.owner, s, op, t.event); }
  }

  lemma RowsDrawnUsed(s: Store)
    requires Inv(s)
    ensures s.rows.Keys <= s.used
  {
  }

  lemma WriteCommits(m: Machine, a: Action)
    requires Keyed(m) && Enabled(m, a) && a.Step? && (m.tasks[a.task].SubWriting? || m.tasks[a.task].EnvWriting?)
    ensures var t, s, s' := m.tasks[a.task], m.store, Apply(m, a).store; Stores(s, s', t.id) && s'.subs[t.id] == t.sub
  {
    hide CacheAfter, DirtyAfter, After;
    KeyedTasks(m, a.task);
  }

  lemma StopCommits(m: Machine, a: Action)
    requires Keyed(m) && Enabled(m, a) && a.Step? && m.tasks[a.task].EnvStopping?
    ensures SwitchedOff(m.store, Apply(m, a).store, m.tasks[a.task].id) && Apply(m, a).store.rows == m.store.rows
  {
    hide CacheAfter, DirtyAfter, After;
    KeyedTasks(m, a.task);
  }

  lemma UnsubscribeCommits(m: Machine, a: Action)
    requires Inv(m.store) && Keyed(m) && Enabled(m, a) && a.Step? && m.tasks[a.task].UnsubCancelling?
    ensures var t := m.tasks[a.task];
      SwitchedOff(m.store, Apply(m, a).store, t.id) && RowsLowered(m.store, Apply(m, a).store, {t.id}, t.now)
  {
    hide Inv, Apply, Enabled, Next, Ready, SwitchedOff, RowsLowered, Keyed;
    StepInTasks(m, a);
    KeyedTasks(m, a.task);
    StoreStep(m, a);
    var t := m.tasks[a.task];
    assert ActionOp(m, a) == DoCancel(t.id, m.owner, t.now);
    OwnedByKey(m, t.id);
    NextCancel(m.store, t.id, m.owner, t.now);
  }

  lemma StepInTasks(m: Machine, a: Action)
    requires Enabled(m, a) && a.Step?
    ensures a.task in m.tasks
  {
  }

  lemma OwnedByKey(m: Machine, id: SubId)
    requires Keyed(m) && id.owner == m.owner
    ensures id in m.store.subs ==> m.store.subs[id].owner == m.owner
  {
  }

  lemma NextCancel(s: Store, id: SubId, owner: string, now: int)
    requires Inv(s) && (id in s.subs ==> s.subs[id].owner == owner)
    ensures var s' := Next(s, DoCancel(id, owner, now)); SwitchedOff(s, s', id) && RowsLowered(s, s', {id}, now)
  {
    hide Inv, CancelAll, RowsLowered;
    CancelEffect(s, {id}, now);
  }

  lemma NextCancelKind(s: Store, now: int)
    requires Inv(s) && forall id <- s.subs :: KeyedSub(id, s.subs[id])
    ensures var s' := Next(s, DoCancelKind(McpSubscription, now));
      AllSwitchedOff(s, s') && RowsLowered(s, s', UrlIds(s), now)
  {
    hide Inv, CancelAll, RowsLowered;
    assert OfKind(s, McpSubscription) == UrlIds(s);
    CancelEffect(s, UrlIds(s), now);
  }

  /** Cancelling subscriptions, on the tables. */
  lemma CancelEffect(s: Store, ids: set<SubId>, now: int)
    requires Inv(s)
    ensures var s' := CancelAll(s, ids, now);
      && s'.occs == s.occs && s'.used == s.used && s'.subs.Keys == s.subs.Keys && RowsLowered(s, s', ids, now)
      && forall k <- s.subs :: s'.subs[k] == if k in ids then s.subs[k].(active := false) else s.subs[k]
    ensures (forall k <- ids :: k !in s.subs) ==> CancelAll(s, ids, now) == s
  {
    hide Unique, LeasesSound, AllDrawn;
    if forall k <- ids :: k !in s.subs { CancelAbsent(s, ids, now); }
  }

  lemma CancelAbsent(s: Store, ids: set<SubId>, now: int)
    requires Inv(s) && forall k <- ids :: k !in s.subs
    ensures CancelAll(s, ids, now) == s
  {
    hide Unique, LeasesSound, AllDrawn;
    assert CancelAll(s, ids, now).subs == s.subs && CancelAll(s, ids, now).rows == s.rows;
  }

  lemma RevokeCommits(m: Machine, a: Action)
    requires Inv(m.store) && Keyed(m) && Enabled(m, a) && a.Step? && m.tasks[a.task].RevokeCancelling?
    ensures AllSwitchedOff(m.store, Apply(m, a).store)
    ensures RowsLowered(m.store, Apply(m, a).store, UrlIds(m.store), m.tasks[a.task].now)
  {
    hide Inv, Apply, Enabled, Next, Ready, AllSwitchedOff, RowsLowered, KeyedTask, KeyedSub, UrlIds;
    StoreStep(m, a);
    StepInTasks(m, a);
    NextCancelKind(m.store, m.tasks[a.task].now);
  }

  lemma TickCommits(m: Machine, a: Action)
    requires Enabled(m, a) && a.Step? && (m.tasks[a.task].TickSweeping? || m.tasks[a.task].TickClaiming?)
    ensures var t := m.tasks[a.task];
      && (t.TickSweeping? ==> Apply(m, a).store == Cleanup(m.store, t.now))
      && (t.TickClaiming? ==> ClaimedFor(m, m.store, Apply(m, a).store, t.lane, t.now))
  {
    hide CacheAfter, DirtyAfter, After, Cleanup, Claim;
    var t := m.tasks[a.task];
    if t.TickClaiming? {
      var q := LaneQuery(m, t.lane, t.now, a.x.token);
      assert Apply(m, a).store == Next(m.store, DoClaim(q)) && q.token !in m.store.used;
    }
  }

  /** In every interleaving the transaction of a call does to the tables what the arguments of that call
      ask for, and nothing else. */
  lemma CallsCommit(ms: seq<Machine>, acts: seq<Action>, b: nat, n: nat, k: TaskId)
    requires IsServiceRun(ms, acts) && b < n < |acts| && acts[b].Begin? && acts[b].task == k
    requires (forall i | b < i <= n :: k in ms[i].tasks) && acts[n].Step? && acts[n].task == k
    ensures Committed(ms[n], ms[n].tasks[k], acts[b].call, Now(ms[b]), ms[n].store, ms[n + 1].store)
  {
    hide Keyed, Exclusive, Readings, Synced, Inv, ItemsSound, Apply, Enabled, Stores, SwitchedOff, AllSwitchedOff,
      RowsLowered, PublishedTo, ClaimedFor, RowFor, EnvRowFor, Cleanup, UrlIds, Now;
    RunServiceInv(ms, acts, n);
    StillServes(ms, acts, b, n, k);
    assert Enabled(ms[n], acts[n]) && ms[n + 1] == Apply(ms[n], acts[n]);
    match ms[n].tasks[k]
    case SubWriting(_, _, _, _) => WriteCommits(ms[n], acts[n]);
    case EnvWriting(_, _, _) => WriteCommits(ms[n], acts[n]);
    case EnvStopping(_) => StopCommits(ms[n], acts[n]);
    case UnsubCancelling(_, _, _) => UnsubscribeCommits(ms[n], acts[n]);
    case RevokeCancelling(_, _) => RevokeCommits(ms[n], acts[n]);
    case PubWriting(_, _, _) => PublishCommits(ms[n], acts[n]);
    case TickSweeping(_, _) => TickCommits(ms[n], acts[n]);
    case TickClaiming(_, _) => TickCommits(ms[n], acts[n]);
    case _ =>
  }

  // ---- every call goes through all its steps ----

  /** How many steps a call has made. */
  function Stage(t: Task): nat
  {
    match t
    case TickStart(_) => 0
    case TickSweeping(_, _) => 1
    case TickReady(_) => 2
    case TickClaiming(_, _) => 3
    case TickPosting(_, _) => 4
    case TickCompleting(_, _, _) => 5
    case SubStart(_) => 0
    case SubVerifying(_) => 1
    case SubSweeping(_, _) => 2
    case SubReading(_, _) => 3
    case SubGranting(_, _, _) => 4
    case SubWriting(_, _, _, _) => 5
    case SubWritten(_, _, _) => 6
    case UnsubStart(_) => 0
    case UnsubLocked(_, _) => 1
    case UnsubCancelling(_, _, _) => 2
    case UnsubDone(_) => 3
    case RevokeStart => 0
    case RevokeWaiting => 1
    case RevokeLocked(_) => 2
    case RevokeCancelling(_, _) => 3
    case RevokeDone(_) => 4
    case EnvStart(_) => 0
    case EnvReading(_, _) => 1
    case EnvWriting(_, _, _) => 2
    case EnvWritten(_, _) => 3
    case EnvStopping(_) => 1
    case EnvStopped(_) => 2
    case PubStart(_) => 0
    case PubChecking(_, _) => 1
    case PubDating(_) => 2
    case PubReady(_, _) => 3
    case PubWriting(_, _, _) => 4
  }

  /** Nothing is left to do after this step: it was the last, nothing is due to deliver, nobody listens to
      the event, or the caller is gone. */
  ghost predicate EndsWith(m: Machine, t: Task, x: Input)
  {
    || t.TickCompleting? || t.SubWritten? || t.UnsubDone? || t.RevokeDone? || t.EnvWritten? || t.EnvStopped?
    || t.PubWriting?
    || (t.TickClaiming? && forall r :: !Leases(m.store, OpOf(m, t, x), r))
    || (t.PubChecking? && forall id :: !Wants(m, id, t.event.eventType, t.now))
    || ((t.SubWriting? || t.UnsubCancelling? || t.RevokeCancelling?) && !t.attached)
  }

  lemma AfterStage(m: Machine, t: Task, x: Input)
    requires After(m, t, x).Some?
    ensures Stage(After(m, t, x).value) == Stage(t) + 1
  {
    hide Claimed, Interested, UpsertAllowed, OfKind, Lookup, Granted, EnvRow;
  }

  lemma AfterEnds(m: Machine, t: Task, x: Input)
    requires Keyed(m) && KeyedTask(m.owner, t)
    ensures After(m, t, x).None? <==> EndsWith(m, t, x)
  {
    hide Claimed, Interested, OfKind, Lookup, Granted, EnvRow, Leases, Wants;
    if t.PubChecking? { InterestedMeans(m, t.event.eventType, t.now); }
    if t.TickClaiming? { LeasesMeans(m.store, OpOf(m, t, x)); }
  }

  /** A step leads to the next stage of its call, or ends the call exactly when nothing is left to do. */
  lemma StepsInOrder(m: Machine, a: Action)
    requires Keyed(m) && Enabled(m, a) && a.Step?
    ensures var t, next := m.tasks[a.task], Apply(m, a).tasks;
      && (a.task in next ==> Stage(next[a.task]) == Stage(t) + 1)
      && (a.task !in next <==> EndsWith(m, t, a.x))
  {
    hide Next, CacheAfter, DirtyAfter, Allowed, After, EndsWith, Keyed, Stage, OpOf;
    KeyedTasks(m, a.task);
    AfterEnds(m, m.tasks[a.task], a.x);
    if After(m, m.tasks[a.task], a.x).Some? { AfterStage(m, m.tasks[a.task], a.x); }
  }

  /** A remembered subscription of the owner, unexpired, for every event or this type. */
  predicate Wants(m: Machine, id: SubId, eventType: string, now: int)
  {
    && id in m.cache && m.cache[id].target == m.owner
    && (m.cache[id].eventType == "*" || m.cache[id].eventType == eventType)
    && (m.cache[id].expiresAt.Some? ==> m.cache[id].expiresAt.value > now)
  }

  lemma InterestedMeans(m: Machine, eventType: string, now: int)
    ensures Interested(m, eventType, now) <==> exists id :: Wants(m, id, eventType, now)
  {
    if Interested(m, eventType, now) {
      var id :| id in m.cache && m.cache[id].target == m.owner && Unexpired(m.cache[id].expiresAt, now)
        && (m.cache[id].eventType == WILDCARD || m.cache[id].eventType == eventType);
      assert Wants(m, id, eventType, now);
    }
  }

  lemma LeasesMeans(s: Store, op: Op)
    requires op.DoClaim?
    ensures Claimed(s, op.q).None? <==> forall r :: !Leases(s, op, r)
  {
    if Claimed(s, op.q).Some? { assert Leases(s, op, NextRow(s, op.q).value); }
  }

  /** A dropped call ends at once, unless its store call was already submitted: that one goes on by itself,
      with the same arguments. */
  lemma DropKeepsSubmitted(m: Machine, a: Action)
    requires Enabled(m, a) && a.Drop?
    ensures var t, next := m.tasks[a.task], Apply(m, a).tasks;
      && (a.task in next <==>
            t.SubWriting? || t.UnsubLocked? || t.UnsubCancelling? || t.RevokeLocked? || t.RevokeCancelling?)
      && (a.task in next ==> Stage(next[a.task]) == Stage(t) && !Attached(next[a.task]))
      && (a.task in next && t.SubWriting? ==> next[a.task] == SubWriting(t.id, t.sub, t.now, false))
    ensures Apply(m, a).store == m.store && Apply(m, a).cache == m.cache
  {
  }

  /** What the last step of a call makes the service remember. */
  lemma CacheCommits(m: Machine, a: Action)
    requires Enabled(m, a) && a.Step?
    ensures var t, cache := m.tasks[a.task], Apply(m, a).cache;
      match t
      case SubWritten(id, entry, now) =>
        && id in cache && cache[id] == entry
        && (forall k | k != id :: k in cache <==>
              k in m.cache && (m.cache[k].expiresAt.Some? ==> m.cache[k].expiresAt.value > now))
        && (forall k | k in cache && k != id :: k in m.cache && cache[k] == m.cache[k])
      case EnvWritten(id, entry) => cache == m.cache[id := entry]
      case UnsubDone(id) => cache == m.cache - {id}
      case EnvStopped(id) => cache == m.cache - {id}
      case RevokeDone(ids) => cache == m.cache - ids
      case _ => cache == m.cache
  {
    hide Next, DirtyAfter, After, Allowed, OpOf;
  }

  /** A restart switches off exactly the owner's active subscriptions under another credential, keeps
      everything else in the tables, and remembers exactly what is live. */
  lemma RestartCommits(m: Machine, a: Action)
    requires Enabled(m, a) && a.Restart?
    ensures var m', s, s' := Apply(m, a), m.store, Apply(m, a).store;
      && s'.occs == s.occs && s'.rows == s.rows && s'.used == s.used && s'.subs.Keys == s.subs.Keys
      && m'.fingerprint == a.credential && m'.tasks == map[]
      && (forall id <- s.subs ::
            if s.subs[id].owner == m.owner && s.subs[id].active && s.subs[id].fingerprint != a.credential
            then s'.subs[id] == s.subs[id].(active := false) else s'.subs[id] == s.subs[id])
      && (forall id :: id in m'.cache <==>
            id in s'.subs && s'.subs[id].owner == m.owner && s'.subs[id].active
            && (s'.subs[id].expiresAt.Some? ==> s'.subs[id].expiresAt.value > Now(m')))
  {
  }
}
