/** What every step of the service keeps: lock exclusion, clock readings, and a cache in step with the store. */
module ServiceInvariants {
  import opened Wrappers
  import opened Outbox
  import opened OutboxInvariants
  import opened Service

  // ---- ids say whose subscription it is and of which kind ----

  predicate KeyedSub(id: SubId, sub: Subscription)
  {
    && sub.owner == id.owner && sub.target == id.owner
    && (if id.EnvSub? then sub.kind == EnvWebhook && sub.expiresAt.None? else sub.kind == McpSubscription)
  }

  predicate MineUrl(owner: string, id: SubId) { id.UrlSub? && id.owner == owner }

  predicate KeyedTask(owner: string, t: Task)
  {
    match t
    case SubWriting(id, sub, _, _) => MineUrl(owner, id) && KeyedSub(id, sub) && sub.active
    case SubWritten(id, _, _) => MineUrl(owner, id)
    case UnsubStart(id) => MineUrl(owner, id)
    case UnsubLocked(id, _) => MineUrl(owner, id)
    case UnsubCancelling(id, _, _) => MineUrl(owner, id)
    case UnsubDone(id) => MineUrl(owner, id)
    case RevokeDone(ids) => forall id <- ids :: id.UrlSub?
    case EnvWriting(id, sub, _) => id == EnvSub(owner) && KeyedSub(id, sub) && sub.active
    case EnvWritten(id, _) => id == EnvSub(owner)
    case EnvStopping(id) => id == EnvSub(owner)
    case EnvStopped(id) => id == EnvSub(owner)
    case _ => true
  }

  ghost predicate Keyed(m: Machine)
  {
    && (forall id <- m.store.subs :: KeyedSub(id, m.store.subs[id]))
    && (forall i <- m.tasks :: KeyedTask(m.owner, m.tasks[i]))
  }

  // ---- locks ----

  ghost predicate Exclusive(m: Machine)
  {
    && (forall i, j | i in m.tasks && j in m.tasks && HoldsWrite(m.tasks[i]) && HoldsRead(m.tasks[j]) :: false)
    && (forall i, j | i in m.tasks && j in m.tasks && HoldsWrite(m.tasks[i]) && HoldsWrite(m.tasks[j]) :: i == j)
    && (forall i, j | i in m.tasks && j in m.tasks && HoldsCache(m.tasks[i]) && HoldsCache(m.tasks[j]) :: i == j)
    && (forall i, j | i in m.tasks && j in m.tasks && EnvTask(m.tasks[i]) && EnvTask(m.tasks[j]) :: i == j)
  }

  // ---- clock readings ----

  function Reading(t: Task): Option<int>
  {
    match t
    case TickSweeping(_, now) => Some(now)
    case TickClaiming(_, now) => Some(now)
    case SubSweeping(_, now) => Some(now)
    case SubReading(_, now) => Some(now)
    case SubGranting(_, now, _) => Some(now)
    case SubWriting(_, _, now, _) => Some(now)
    case SubWritten(_, _, now) => Some(now)
    case EnvReading(_, now) => Some(now)
    case EnvWriting(_, _, now) => Some(now)
    case UnsubCancelling(_, now, _) => Some(now)
    case RevokeCancelling(now, _) => Some(now)
    case PubChecking(_, now) => Some(now)
    case PubWriting(_, _, now) => Some(now)
    case _ => None
  }

  predicate ReadInPast(m: Machine, t: Task) { Reading(t).Some? ==> Reading(t).value <= Now(m) }

  ghost predicate Readings(m: Machine) { forall i <- m.tasks :: ReadInPast(m, m.tasks[i]) }

  // ---- the cache ----

  /** What the store says of id to a reader of the present clock. */
  function StoreView(m: Machine, id: SubId): Option<Entry>
  {
    if id in m.store.subs && Live(m.store.subs[id], m.owner, Now(m)) then Some(EntryOf(m.store.subs[id])) else None
  }

  function UnexpiredEntry(e: Option<Entry>, now: int): Option<Entry>
  {
    if e.Some? && Unexpired(e.value.expiresAt, now) then e else None
  }

  function Cached(m: Machine, id: SubId): Option<Entry> { if id in m.cache then Some(m.cache[id]) else None }

  /** A task that has written id in the store and is about to bring the cache in line. */
  predicate AboutToCache(t: Task, id: SubId)
  {
    match t
    case SubWritten(k, _, _) => k == id
    case UnsubDone(k) => k == id
    case RevokeDone(ids) => id in ids
    case EnvWritten(k, _) => k == id
    case EnvStopped(k) => k == id
    case _ => false
  }

  /** What that task will leave in the cache. */
  function Target(t: Task): Option<Entry>
  {
    match t
    case SubWritten(_, entry, _) => Some(entry)
    case EnvWritten(_, entry) => Some(entry)
    case _ => None
  }

  ghost predicate SyncedAt(m: Machine, id: SubId)
  {
    && ((forall i <- m.tasks :: !AboutToCache(m.tasks[i], id)) ==>
      UnexpiredEntry(Cached(m, id), Now(m)) == StoreView(m, id))
    && (forall i <- m.tasks :: AboutToCache(m.tasks[i], id) ==>
      UnexpiredEntry(Target(m.tasks[i]), Now(m)) == StoreView(m, id))
  }

  ghost predicate Synced(m: Machine) { forall id :: id !in m.dirty ==> SyncedAt(m, id) }

  ghost predicate ServiceInv(m: Machine)
  {
    Inv(m.store) && Keyed(m) && Exclusive(m) && Readings(m) && Synced(m)
  }

  /** Opening the service on any store it wrote establishes all of it. */
  lemma OpenEstablishes(store: Store, owner: string, fingerprint: string, clockMs: int)
    requires Inv(store) && forall id <- store.subs :: KeyedSub(id, store.subs[id])
    ensures ServiceInv(Open(store, owner, fingerprint, clockMs))
  {
    hide Inv, Next;
    assert Ready(store, DoRevokeExcept(owner, fingerprint));
    NextKeepsInv(store, DoRevokeExcept(owner, fingerprint));
    NextRevoke(store, owner, fingerprint);
  }

  lemma NextRevoke(store: Store, owner: string, fingerprint: string)
    ensures Next(store, DoRevokeExcept(owner, fingerprint)) == RevokeExcept(store, owner, fingerprint)
  {
  }

  // ---- preservation ----

  lemma KeyedStep(m: Machine, a: Action)
    requires Keyed(m) && Enabled(m, a)
    ensures Keyed(Apply(m, a))
  {
    if a.Step? {
      KeyedOp(m, m.tasks[a.task], a.x);
      KeyedAfter(m, m.tasks[a.task], a.x);
    }
  }

  lemma KeyedOp(m: Machine, t: Task, x: Input)
    requires Keyed(m) && KeyedTask(m.owner, t)
    ensures forall id <- Next(m.store, OpOf(m, t, x)).subs :: KeyedSub(id, Next(m.store, OpOf(m, t, x)).subs[id])
  {
  }

  lemma KeyedAfter(m: Machine, t: Task, x: Input)
    requires Keyed(m) && KeyedTask(m.owner, t)
    ensures After(m, t, x).Some? ==> KeyedTask(m.owner, After(m, t, x).value)
  {
  }

  /** A step gets a lock only when it is free, and otherwise keeps at most what its task held. */
  lemma AfterRead(m: Machine, t: Task, x: Input)
    requires Allowed(m, t, x) && After(m, t, x).Some?
    ensures HoldsRead(After(m, t, x).value) ==> HoldsRead(t) || NoWriter(m)
  {
    hide Ready, OpOf, NoReader, NoWriter, CacheFree, Claimed, Interested, Granted, EnvRow, UpsertAllowed, OfKind;
  }

  lemma AfterWrite(m: Machine, t: Task, x: Input)
    requires Allowed(m, t, x) && After(m, t, x).Some?
    ensures HoldsWrite(After(m, t, x).value) ==> HoldsWrite(t) || (NoReader(m) && NoWriter(m))
  {
    hide Ready, OpOf, NoReader, NoWriter, CacheFree, Claimed, Interested, Granted, EnvRow, UpsertAllowed, OfKind;
  }

  lemma AfterCache(m: Machine, t: Task, x: Input)
    requires Allowed(m, t, x) && After(m, t, x).Some?
    ensures HoldsCache(After(m, t, x).value) ==> HoldsCache(t) || CacheFree(m)
  {
    hide Ready, OpOf, NoReader, NoWriter, CacheFree, Claimed, Interested, Granted, EnvRow, UpsertAllowed, OfKind;
  }

  lemma AfterEnv(m: Machine, t: Task, x: Input)
    requires Allowed(m, t, x) && After(m, t, x).Some?
    ensures EnvTask(After(m, t, x).value) ==> EnvTask(t)
  {
    hide Ready, OpOf, NoReader, NoWriter, CacheFree, Claimed, Interested, Granted, EnvRow, UpsertAllowed, OfKind;
  }

  lemma DroppedLocks(t: Task)
    requires Dropped(t).Some?
    ensures var u := Dropped(t).value;
      (HoldsRead(u) ==> HoldsRead(t)) && !HoldsWrite(u) && !HoldsCache(u) && !EnvTask(u)
  {
  }

  /** Replacing one task by one that holds no more than it may. */
  lemma ExclusiveSet(m: Machine, m': Machine, i: TaskId, u: Option<Task>)
    requires Exclusive(m) && i in m.tasks && m'.tasks == SetTask(m.tasks, i, u)
    requires u.Some? ==>
      && (HoldsRead(u.value) ==> HoldsRead(m.tasks[i]) || NoWriter(m))
      && (HoldsWrite(u.value) ==> HoldsWrite(m.tasks[i]) || (NoReader(m) && NoWriter(m)))
      && (HoldsCache(u.value) ==> HoldsCache(m.tasks[i]) || CacheFree(m)) && (EnvTask(u.value) ==> EnvTask(m.tasks[i]))
      && !(HoldsRead(u.value) && HoldsWrite(u.value))
    ensures Exclusive(m')
  {
    hide HoldsRead, HoldsWrite, HoldsCache;
  }

  lemma NeverBoth(t: Task)
    ensures !(HoldsRead(t) && HoldsWrite(t))
  {
  }

  lemma ExclusiveStep(m: Machine, a: Action)
    requires Exclusive(m) && Enabled(m, a)
    ensures Exclusive(Apply(m, a))
  {
    hide Exclusive, HoldsRead, HoldsWrite, HoldsCache, NoReader, NoWriter, CacheFree;
    match a
    case Advance(_) => SameTasksExclusive(m, Apply(m, a));
    case Begin(i, t) => BeginExclusive(m, i, t);
    case Step(i, x) =>
      var u := After(m, m.tasks[i], x);
      if u.Some? {
        AfterRead(m, m.tasks[i], x);
        AfterWrite(m, m.tasks[i], x);
        AfterCache(m, m.tasks[i], x);
        AfterEnv(m, m.tasks[i], x);
        NeverBoth(u.value);
      }
      ExclusiveSet(m, Apply(m, a), i, u);
    case Drop(i) =>
      var u := Dropped(m.tasks[i]);
      if u.Some? {
        DroppedLocks(m.tasks[i]);
        NeverBoth(u.value);
      }
      ExclusiveSet(m, Apply(m, a), i, u);
    case Restart(_, _) => NothingRunsExclusive(Apply(m, a));
  }

  lemma NothingRunsExclusive(m: Machine)
    requires m.tasks == map[]
    ensures Exclusive(m)
  {
  }

  lemma SameTasksExclusive(m: Machine, m': Machine)
    requires Exclusive(m) && m'.tasks == m.tasks
    ensures Exclusive(m')
  {
  }

  lemma FreshHoldsNothing(t: Task)
    requires Fresh(t)
    ensures !HoldsRead(t) && !HoldsWrite(t) && !HoldsCache(t) && forall id :: !AboutToCache(t, id)
  {
  }

  lemma BeginExclusive(m: Machine, i: TaskId, t: Task)
    requires Exclusive(m) && Enabled(m, Begin(i, t))
    ensures Exclusive(Apply(m, Begin(i, t)))
  {
    hide HoldsRead, HoldsWrite, HoldsCache, EnvTask, Fresh, AboutToCache;
    FreshHoldsNothing(t);
  }

  lemma ReadingsStep(m: Machine, a: Action)
    requires Readings(m) && Enabled(m, a)
    ensures Readings(Apply(m, a)) && Now(m) <= Now(Apply(m, a))
  {
    match a
    case Step(i, x) => AfterReading(m, m.tasks[i], x);
    case _ =>
  }

  lemma AfterReading(m: Machine, t: Task, x: Input)
    requires ReadInPast(m, t)
    ensures After(m, t, x).Some? ==> ReadInPast(m, After(m, t, x).value)
  {
  }

  // ---- the cache stays in step ----

  /** A step changes what the store says only of the ids it writes. */
  lemma StoreViewKept(m: Machine, t: Task, x: Input, id: SubId)
    requires Keyed(m) && KeyedTask(m.owner, t) && ReadInPast(m, t) && id !in Written(m, t)
    ensures StoreView(m.(store := Next(m.store, OpOf(m, t, x))), id) == StoreView(m, id)
  {
    hide Claim, Publish, Complete, Keyed, Cleanup;
    var op := OpOf(m, t, x);
    match op
    case DoCleanup(now) => CleanupKeepsView(m, now, id);
    case DoCancelKind(kind, now) => assert id !in OfKind(m.store, kind);
    case DoClaim(q) => ClaimKeepsSubs(m.store, q);
    case DoPublish(_, _, _, _, _, _) => PublishKeepsSubs(m.store, op);
    case DoComplete(_, _, _, _) => CompleteKeepsSubs(m.store, op);
    case _ =>
  }

  lemma CleanupKeepsView(m: Machine, now: int, id: SubId)
    requires now <= Now(m)
    ensures StoreView(m.(store := Cleanup(m.store, now)), id) == StoreView(m, id)
  {
  }

  lemma ClaimKeepsSubs(s: Store, q: Query)
    ensures Claim(s, q).subs == s.subs
  {
  }

  lemma PublishKeepsSubs(s: Store, op: Op)
    requires op.DoPublish?
    ensures Next(s, op).subs == s.subs
  {
  }

  lemma CompleteKeepsSubs(s: Store, op: Op)
    requires op.DoComplete?
    ensures Next(s, op).subs == s.subs
  {
  }

  /** What an attached write leaves in the store is what its task will put in the cache. */
  lemma WriterBecomesPending(m: Machine, t: Task, x: Input, id: SubId)
    requires Keyed(m) && KeyedTask(m.owner, t) && !Detached(t) && id in Written(m, t)
    ensures After(m, t, x).Some? && AboutToCache(After(m, t, x).value, id)
    ensures UnexpiredEntry(Target(After(m, t, x).value), Now(m)) ==
      StoreView(m.(store := Next(m.store, OpOf(m, t, x))), id)
  {
  }

  /** Only a write makes a task pending. */
  lemma PendingComesFromWrite(m: Machine, t: Task, x: Input, id: SubId)
    requires After(m, t, x).Some? && AboutToCache(After(m, t, x).value, id)
    ensures id in Written(m, t)
  {
  }

  /** The step of a pending task puts its target into the cache and leaves other ids alone. */
  lemma CacheUpdate(m: Machine, t: Task, id: SubId)
    requires ReadInPast(m, t)
    ensures UnexpiredEntry(Cached(m.(cache := CacheAfter(m, t)), id), Now(m)) ==
      UnexpiredEntry(if AboutToCache(t, id) then Target(t) else Cached(m, id), Now(m))
  {
  }

  predicate Writer(t: Task) { HoldsCache(t) || EnvTask(t) }

  lemma PendingIsWriter(t: Task, id: SubId)
    requires AboutToCache(t, id)
    ensures Writer(t)
  {
  }

  /** Two writers of one id, both attached, are the same task. */
  lemma WritersCollide(m: Machine, i: TaskId, j: TaskId, id: SubId)
    requires Keyed(m) && Exclusive(m) && i in m.tasks && j in m.tasks
    requires !Detached(m.tasks[i]) && (id in Written(m, m.tasks[i]) || AboutToCache(m.tasks[i], id))
    requires AboutToCache(m.tasks[j], id)
    ensures i == j
  {
    KeyedIds(m, m.tasks[i], id);
    KeyedIds(m, m.tasks[j], id);
  }

  lemma KeyedIds(m: Machine, t: Task, id: SubId)
    requires Keyed(m) && KeyedTask(m.owner, t) && !Detached(t) && (id in Written(m, t) || AboutToCache(t, id))
    ensures if id.EnvSub? then EnvTask(t) else HoldsCache(t)
  {
  }

  lemma SyncStep(m: Machine, i: TaskId, x: Input, id: SubId)
    requires Keyed(m) && Exclusive(m) && Readings(m) && Synced(m) && Enabled(m, Step(i, x))
    requires id !in Apply(m, Step(i, x)).dirty
    ensures SyncedAt(Apply(m, Step(i, x)), id)
  {
    hide Keyed, Exclusive, Allowed, After, CacheAfter, Next, OpOf, Written, StoreView, UnexpiredEntry, AboutToCache,
      Target, Detached, KeyedTask, Reading;
    var t := m.tasks[i];
    var m' := Apply(m, Step(i, x));
    KeyedTasks(m, i);
    StoreViewOf(m.(store := m'.store), m', id);
    if id in Written(m, t) {
      assert !Detached(t);
      WriterBecomesPending(m, t, x, id);
      assert i in m'.tasks && m'.tasks[i] == After(m, t, x).value;
      assert AboutToCache(m'.tasks[i], id);
      forall j | j in m'.tasks && AboutToCache(m'.tasks[j], id) ensures j == i {
        if j != i {
          assert j in m.tasks && m.tasks[j] == m'.tasks[j];
          WritersCollide(m, i, j, id);
        }
      }
      assert UnexpiredEntry(Target(m'.tasks[i]), Now(m')) == StoreView(m', id);
    } else {
      assert id !in m.dirty;
      StoreViewKept(m, t, x, id);
      CacheUpdate(m, t, id);
      CachedOf(m.(cache := m'.cache), m', id);
      forall j | j in m'.tasks && AboutToCache(m'.tasks[j], id)
        ensures j != i && j in m.tasks && m.tasks[j] == m'.tasks[j]
      {
        if j == i { PendingComesFromWrite(m, t, x, id); }
      }
      if (forall j <- m'.tasks :: !AboutToCache(m'.tasks[j], id)) && !AboutToCache(t, id) {
        forall j | j in m.tasks ensures !AboutToCache(m.tasks[j], id) {
          if j != i { assert j in m'.tasks && m'.tasks[j] == m.tasks[j]; }
        }
      }
    }
  }

  lemma KeyedTasks(m: Machine, i: TaskId)
    requires Keyed(m) && i in m.tasks
    ensures KeyedTask(m.owner, m.tasks[i])
  {
  }

  lemma StoreViewOf(m: Machine, m': Machine, id: SubId)
    requires m.store == m'.store && m.owner == m'.owner && m.clockMs == m'.clockMs
    ensures StoreView(m, id) == StoreView(m', id)
  {
  }

  lemma CachedOf(m: Machine, m': Machine, id: SubId)
    requires m.cache == m'.cache
    ensures Cached(m, id) == Cached(m', id)
  {
  }

  lemma SyncDrop(m: Machine, i: TaskId, id: SubId)
    requires Synced(m) && i in m.tasks && id !in Apply(m, Drop(i)).dirty
    ensures SyncedAt(Apply(m, Drop(i)), id)
  {
    var t, m' := m.tasks[i], Apply(m, Drop(i));
    assert !AboutToCache(t, id);
    assert forall j <- m'.tasks :: AboutToCache(m'.tasks[j], id) ==> j in m.tasks && m.tasks[j] == m'.tasks[j];
    assert forall j <- m.tasks :: AboutToCache(m.tasks[j], id) ==> j in m'.tasks && m.tasks[j] == m'.tasks[j];
  }

  lemma SyncOther(m: Machine, a: Action, id: SubId)
    requires Synced(m) && Enabled(m, a) && (a.Advance? || a.Begin?) && id !in m.dirty
    ensures SyncedAt(Apply(m, a), id)
  {
    var m' := Apply(m, a);
    assert forall j <- m'.tasks :: AboutToCache(m'.tasks[j], id) ==> j in m.tasks && m.tasks[j] == m'.tasks[j];
    assert forall j <- m.tasks :: j in m'.tasks && m.tasks[j] == m'.tasks[j];
  }

  lemma OpenSynced(store: Store, owner: string, fingerprint: string, clockMs: int, id: SubId)
    ensures SyncedAt(Open(store, owner, fingerprint, clockMs), id)
  {
  }

  lemma SyncedAfter(m: Machine, a: Action)
    requires Keyed(m) && Exclusive(m) && Readings(m) && Synced(m) && Enabled(m, a)
    ensures Synced(Apply(m, a))
  {
    hide Keyed, Exclusive, Readings, SyncedAt, Allowed, After, CacheAfter, Next;
    forall id | id !in Apply(m, a).dirty ensures SyncedAt(Apply(m, a), id) {
      match a
      case Step(i, x) => SyncStep(m, i, x, id);
      case Drop(i) => SyncDrop(m, i, id);
      case Restart(credential, ms) => OpenSynced(m.store, m.owner, credential, m.clockMs + ms, id);
      case _ => SyncOther(m, a, id);
    }
  }

  lemma StoreStep(m: Machine, a: Action)
    requires Enabled(m, a)
    ensures Ready(m.store, ActionOp(m, a)) && Apply(m, a).store == Next(m.store, ActionOp(m, a))
    ensures Apply(m, a).owner == m.owner
  {
  }

  /** Every action of every task keeps the service invariant. */
  lemma ApplyKeepsInv(m: Machine, a: Action)
    requires ServiceInv(m) && Enabled(m, a)
    ensures ServiceInv(Apply(m, a))
  {
    hide Inv, Keyed, Exclusive, Readings, Synced, Apply, Enabled, Next, Ready;
    StoreStep(m, a);
    NextKeepsInv(m.store, ActionOp(m, a));
    KeyedStep(m, a);
    ExclusiveStep(m, a);
    ReadingsStep(m, a);
    SyncedAfter(m, a);
  }
}
