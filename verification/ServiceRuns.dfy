/** Theorems about every interleaving of the service. */
module ServiceRuns {
  import opened Wrappers
  import opened Outbox
  import opened OutboxInvariants
  import opened OutboxRuns
  import opened DeliveryPolicy
  import opened Service
  import opened ServiceInvariants

  ghost predicate IsServiceRun(ms: seq<Machine>, acts: seq<Action>)
  {
    && |ms| == |acts| + 1 && ServiceInv(ms[0]) && ItemsSound(ms[0])
    && forall i | 0 <= i < |acts| :: Enabled(ms[i], acts[i]) && ms[i + 1] == Apply(ms[i], acts[i])
  }

  lemma {:induction false} RunServiceInv(ms: seq<Machine>, acts: seq<Action>, i: nat)
    requires IsServiceRun(ms, acts) && i < |ms|
    ensures ServiceInv(ms[i]) && ms[i].owner == ms[0].owner
  {
    hide ServiceInv, Apply, Enabled, ItemsSound;
    if i > 0 {
      RunServiceInv(ms, acts, i - 1);
      ApplyKeepsInv(ms[i - 1], acts[i - 1]);
      StoreStep(ms[i - 1], acts[i - 1]);
    }
  }

  /** A run of the service drives the store through a run of transactions. */
  function Stores(ms: seq<Machine>): seq<Store> { seq(|ms|, i requires 0 <= i < |ms| => ms[i].store) }

  function Ops(ms: seq<Machine>, acts: seq<Action>): seq<Op>
    requires |acts| < |ms|
  {
    seq(|acts|, i requires 0 <= i < |acts| => ActionOp(ms[i], acts[i]))
  }

  lemma StoreRun(ms: seq<Machine>, acts: seq<Action>)
    requires IsServiceRun(ms, acts)
    ensures IsRun(Stores(ms), Ops(ms, acts))
  {
    hide Inv, Keyed, Exclusive, Readings, Synced, Apply, Enabled, Next, Ready, ItemsSound, ActionOp;
    forall i | 0 <= i < |acts|
      ensures Ready(ms[i].store, ActionOp(ms[i], acts[i]))
      ensures ms[i + 1].store == Next(ms[i].store, ActionOp(ms[i], acts[i]))
    {
      StoreStep(ms[i], acts[i]);
    }
  }

  lemma {:induction false} ClockMonotone(ms: seq<Machine>, acts: seq<Action>, i: nat, j: nat)
    requires IsServiceRun(ms, acts) && i <= j < |ms|
    ensures Now(ms[i]) <= Now(ms[j])
  {
    hide ServiceInv, Apply, Enabled, ItemsSound, Now;
    if i < j {
      ClockMonotone(ms, acts, i, j - 1);
      RunServiceInv(ms, acts, j - 1);
      ClockStep(ms[j - 1], acts[j - 1]);
    }
  }

  lemma ClockStep(m: Machine, a: Action)
    requires Enabled(m, a)
    ensures Now(m) <= Now(Apply(m, a))
  {
  }

  // ---- the cache never hides a delivery ----

  /** The cache may differ from the store on id only while an environment webhook change is half
      done, or after a dropped call wrote id without reaching its cache update. */
  ghost predicate OutOfStep(m: Machine, id: SubId)
  {
    id in m.dirty || exists i :: i in m.tasks && EnvTask(m.tasks[i]) && AboutToCache(m.tasks[i], id)
  }

  /** Between cache updates the unexpired cache entries are exactly the owner's active unexpired
      subscriptions, now and at every later clock reading. */
  lemma CacheIsStore(ms: seq<Machine>, acts: seq<Action>, j: nat, id: SubId, t: int)
    requires IsServiceRun(ms, acts) && j < |ms| && CacheFree(ms[j]) && !OutOfStep(ms[j], id) && t >= Now(ms[j])
    ensures var m := ms[j];
      && (id in m.store.subs && Live(m.store.subs[id], m.owner, t) <==>
        id in m.cache && Unexpired(m.cache[id].expiresAt, t))
      && (id in m.store.subs && Live(m.store.subs[id], m.owner, t) ==> m.cache[id] == EntryOf(m.store.subs[id]))
  {
    hide Keyed, Exclusive, Readings, Inv, Apply, Enabled, ItemsSound;
    RunServiceInv(ms, acts, j);
    var m := ms[j];
    assert SyncedAt(m, id);
    forall i | i in m.tasks ensures !AboutToCache(m.tasks[i], id) {
      if AboutToCache(m.tasks[i], id) { PendingIsWriter(m.tasks[i], id); }
    }
  }

  /** Publish returns early only while nobody holds the cache, and leaves the store alone. */
  lemma ReturnsEarly(m: Machine, a: Action)
    requires Enabled(m, a) && a.Step? && m.tasks[a.task].PubChecking? && a.task !in Apply(m, a).tasks
    ensures CacheFree(m) && Apply(m, a).store == m.store
    ensures !Interested(m, m.tasks[a.task].event.eventType, m.tasks[a.task].now)
  {
    hide Interested;
  }

  /** Whatever changes the cache holds its mutex, or nobody does. */
  lemma CacheChangesAlone(m: Machine, a: Action, k: TaskId)
    requires Exclusive(m) && Enabled(m, a) && Apply(m, a).cache != m.cache && !a.Restart? && k in m.tasks
    requires HoldsCache(m.tasks[k])
    ensures a.Step? && a.task == k
  {
    hide Next, After, DirtyAfter, HoldsRead, HoldsWrite;
  }

  /** When publish returns early, no store transaction from then on would have found a matching
      subscription either, although it reads the clock again: whatever would match is out of step. */
  lemma EarlyReturnHidesNothing(ms: seq<Machine>, acts: seq<Action>, j: nat, i: TaskId, id: SubId, t: int)
    requires IsServiceRun(ms, acts) && j < |acts| && i in ms[j].tasks && ms[j].tasks[i].PubChecking?
    requires acts[j].Step? && acts[j].task == i && i !in ms[j + 1].tasks && t >= Now(ms[j])
    requires id in Matching(ms[j].store, ms[j].owner, ms[j].tasks[i].event.eventType, t)
    ensures OutOfStep(ms[j], id)
  {
    hide Keyed, Exclusive, Synced, Inv, Apply, Enabled, ItemsSound, OutOfStep;
    RunServiceInv(ms, acts, j);
    assert Enabled(ms[j], acts[j]) && ms[j + 1] == Apply(ms[j], acts[j]);
    ReturnsEarly(ms[j], acts[j]);
    assert ReadInPast(ms[j], ms[j].tasks[i]);
    if !OutOfStep(ms[j], id) {
      CacheIsStore(ms, acts, j, id, t);
      assert false;
    }
  }

  /** So with no dropped call and no half-done environment change, the early return leaves the store
      exactly as the publish transaction would have. */
  lemma EarlyReturnRefinesPublish(ms: seq<Machine>, acts: seq<Action>, j: nat, i: TaskId, occId: Uuid,
                                  occ: Occurrence, payload: Bytes, t: int, drawn: map<Uuid, SubId>)
    requires IsServiceRun(ms, acts) && j < |acts| && i in ms[j].tasks && ms[j].tasks[i].PubChecking?
    requires acts[j].Step? && acts[j].task == i && i !in ms[j + 1].tasks && t >= Now(ms[j])
    requires occ.owner == ms[j].owner && forall id :: !OutOfStep(ms[j], id)
    ensures Publish(ms[j].store, occId, occ, payload, ms[j].tasks[i].event.eventType, t, drawn) == ms[j + 1].store
  {
    hide OutOfStep, Matches, Interested, ServiceInv, ItemsSound, Apply, Enabled;
    assert Enabled(ms[j], acts[j]) && ms[j + 1] == Apply(ms[j], acts[j]);
    ReturnsEarly(ms[j], acts[j]);
    var et := ms[j].tasks[i].event.eventType;
    if id :| id in Matching(ms[j].store, occ.owner, et, t) {
      EarlyReturnHidesNothing(ms, acts, j, i, id, t);
    }
    assert Matching(ms[j].store, occ.owner, et, t) == {};
  }

  // ---- cancelled and revoked rows ----

  /** Every claim in flight read its clock at c or later, or was already in flight in `base`. */
  ghost predicate ReadSince(m: Machine, base: Machine, c: int)
  {
    forall k <- m.tasks :: m.tasks[k].TickClaiming? ==>
      m.tasks[k].now >= c || (k in base.tasks && base.tasks[k] == m.tasks[k])
  }

  lemma ReadSinceStep(m: Machine, a: Action, base: Machine, c: int)
    requires Enabled(m, a) && ReadSince(m, base, c) && c <= Now(m)
    ensures ReadSince(Apply(m, a), base, c)
  {
    var m' := Apply(m, a);
    forall k | k in m'.tasks && m'.tasks[k].TickClaiming?
      ensures m'.tasks[k].now >= c || (k in base.tasks && base.tasks[k] == m'.tasks[k])
    {
      if !(k in m.tasks && m.tasks[k] == m'.tasks[k]) { ClaimReadsClock(m, a, k); }
    }
  }

  lemma ClaimReadsClock(m: Machine, a: Action, k: TaskId)
    requires Enabled(m, a) && k in Apply(m, a).tasks && Apply(m, a).tasks[k].TickClaiming?
    requires !(k in m.tasks && m.tasks[k] == Apply(m, a).tasks[k])
    ensures Apply(m, a).tasks[k].now == Now(m)
  {
  }

  lemma {:induction false} ReadSinceRun(ms: seq<Machine>, acts: seq<Action>, i: nat, j: nat, c: int)
    requires IsServiceRun(ms, acts) && i <= j < |ms| && c <= Now(ms[i])
    ensures ReadSince(ms[j], ms[i], c)
  {
    hide ServiceInv, Apply, Enabled, ItemsSound, Now;
    if i < j {
      ReadSinceRun(ms, acts, i, j - 1, c);
      ClockMonotone(ms, acts, i, j - 1);
      hide ReadSince;
      ReadSinceStep(ms[j - 1], acts[j - 1], ms[i], c);
    }
  }

  /** The store transaction of action i cancels row r at clock reading c. */
  ghost predicate CancelsRow(m: Machine, a: Action, r: Uuid, c: int)
  {
    var op := ActionOp(m, a);
    && (op.DoCancel? || op.DoCancelKind?) && op.now == c
    && r in m.store.rows && m.store.rows[r].subscription in Cancelled(m.store, op)
  }

  /** After an unsubscribe or a revoke has committed, the only claim that can still return one of
      the cancelled rows is one that had read its clock before, and stood in line for the store. */
  lemma CancelledRowsOnlyStaleClaims(ms: seq<Machine>, acts: seq<Action>, i: nat, j: nat, r: Uuid, c: int)
    requires IsServiceRun(ms, acts) && i < j < |acts| && CancelsRow(ms[i], acts[i], r, c)
    requires Leases(ms[j].store, ActionOp(ms[j], acts[j]), r)
    ensures acts[j].Step? && acts[j].task in ms[i].tasks && acts[j].task in ms[j].tasks
    ensures ms[j].tasks[acts[j].task].TickClaiming? && ms[i].tasks[acts[j].task] == ms[j].tasks[acts[j].task]
    ensures ms[j].tasks[acts[j].task].now < c
  {
    hide Keyed, Exclusive, Synced, Inv, Readings, ItemsSound, Apply, Leases, Cancelled;
    StoreRun(ms, acts);
    RunServiceInv(ms, acts, i);
    CancelReadsPast(ms[i], acts[i]);
    ReadSinceRun(ms, acts, i, j, c);
    LeaseIsClaim(ms[j], acts[j], r);
    if ms[j].tasks[acts[j].task].now >= c {
      CancelledRowsStayUnclaimed(Stores(ms), Ops(ms, acts), i, j, r);
    }
  }

  lemma CancelReadsPast(m: Machine, a: Action)
    requires Readings(m) && Enabled(m, a) && (ActionOp(m, a).DoCancel? || ActionOp(m, a).DoCancelKind?)
    ensures ActionOp(m, a).now <= Now(m)
  {
    assert ReadInPast(m, m.tasks[a.task]);
  }

  lemma LeaseIsClaim(m: Machine, a: Action, r: Uuid)
    requires Enabled(m, a) && Leases(m.store, ActionOp(m, a), r)
    ensures a.Step? && a.task in m.tasks && m.tasks[a.task].TickClaiming?
    ensures ActionOp(m, a).DoClaim? && ActionOp(m, a).q.now == m.tasks[a.task].now
    ensures ActionOp(m, a).q.kind == m.tasks[a.task].lane
  {
  }

  /** Action i is the store transaction of a revoke that will return. */
  ghost predicate Revokes(m: Machine, a: Action)
  {
    a.Step? && a.task in m.tasks && m.tasks[a.task].RevokeCancelling? && m.tasks[a.task].attached
  }

  /** Once a revoke has committed, no row of any MCP subscription that existed then is ever claimed
      again, by any interleaving of any later calls. */
  lemma RevokedRowsNeverClaimed(ms: seq<Machine>, acts: seq<Action>, i: nat, j: nat, r: Uuid)
    requires IsServiceRun(ms, acts) && i < j < |acts| && Revokes(ms[i], acts[i])
    requires r in ms[i].store.rows && ms[i].store.rows[r].subscription.UrlSub?
    ensures !Leases(ms[j].store, ActionOp(ms[j], acts[j]), r)
  {
    hide ItemsSound, Apply, Leases, Synced, Enabled, Inv, Keyed, Exclusive, Readings, CancelsRow, ActionOp, HoldsRead;
    RunServiceInv(ms, acts, i);
    RunServiceInv(ms, acts, j);
    if Leases(ms[j].store, ActionOp(ms[j], acts[j]), r) {
      RevokeCancelsRow(ms[i], acts[i], r);
      CancelledRowsOnlyStaleClaims(ms, acts, i, j, r, ms[i].tasks[acts[i].task].now);
      LeasedRowKind(ms, acts, i, j, r);
      RevokerHasNoReader(ms[i], acts[i], acts[j].task);
      assert false by { GatedClaimReads(ms[i].tasks[acts[j].task]); }
    }
  }

  lemma GatedClaimReads(t: Task)
    requires t.TickClaiming? && Gated(t.lane)
    ensures HoldsRead(t)
  {
  }

  lemma RevokerHasNoReader(m: Machine, a: Action, k: TaskId)
    requires Exclusive(m) && Revokes(m, a) && k in m.tasks
    ensures !HoldsRead(m.tasks[k])
  {
  }

  lemma RevokeCancelsRow(m: Machine, a: Action, r: Uuid)
    requires Inv(m.store) && Keyed(m) && Revokes(m, a) && r in m.store.rows && m.store.rows[r].subscription.UrlSub?
    ensures CancelsRow(m, a, r, m.tasks[a.task].now)
  {
    hide Unique, LeasesSound, AllDrawn;
    var id := m.store.rows[r].subscription;
    assert id in m.store.subs && KeyedSub(id, m.store.subs[id]);
  }

  /** A row that was for an MCP subscription is never leased on the environment lane. */
  lemma LeasedRowKind(ms: seq<Machine>, acts: seq<Action>, i: nat, j: nat, r: Uuid)
    requires IsServiceRun(ms, acts) && i <= j < |acts| && Leases(ms[j].store, ActionOp(ms[j], acts[j]), r)
    requires r in ms[i].store.rows && ms[i].store.rows[r].subscription.UrlSub? && Keyed(ms[j])
    ensures acts[j].Step? && acts[j].task in ms[j].tasks && ms[j].tasks[acts[j].task].TickClaiming?
    ensures Gated(ms[j].tasks[acts[j].task].lane)
  {
    hide ServiceInv, ItemsSound, Apply;
    StoreRun(ms, acts);
    LeaseIsClaim(ms[j], acts[j], r);
    ClaimTakesEarliest(ms[j].store, ActionOp(ms[j], acts[j]).q);
    RowOverTime(Stores(ms), Ops(ms, acts), i, j, r);
  }

  // ---- nothing revoked is still being posted ----

  predicate Delivering(t: Task) { t.TickPosting? || t.TickCompleting? }

  /** What the item of a delivery says of the store. */
  ghost predicate ItemSound(s: Store, t: Task)
    requires Delivering(t)
  {
    && OnlyOn(s, t.item.token, t.item.id)
    && (t.item.id in s.rows && s.rows[t.item.id].leaseToken == Some(t.item.token) ==>
          s.rows[t.item.id].attempts == t.item.attempts)
    && (!Gated(t.lane) ==> t.item.subId.EnvSub?)
    && (t.TickCompleting? && t.result.WantsRetry? ==> t.result.nextAt == t.result.at + RetryDelay(t.item.attempts))
  }

  ghost predicate ItemsSound(m: Machine)
  {
    forall i <- m.tasks :: Delivering(m.tasks[i]) ==> ItemSound(m.store, m.tasks[i])
  }

  lemma ItemSurvives(s: Store, op: Op, t: Task)
    requires Inv(s) && Ready(s, op) && Delivering(t) && ItemSound(s, t)
    ensures ItemSound(Next(s, op), t)
  {
    hide Inv, Next;
    OnlyOnStep(s, op, t.item.token, t.item.id);
    RowSteps(s, op);
  }

  lemma ClaimedItemSound(m: Machine, t: Task, x: Input)
    requires Inv(m.store) && Keyed(m) && t.TickClaiming? && Ready(m.store, OpOf(m, t, x)) && After(m, t, x).Some?
    ensures ItemSound(Next(m.store, OpOf(m, t, x)), After(m, t, x).value)
    ensures Leases(m.store, OpOf(m, t, x), After(m, t, x).value.item.id)
    ensures After(m, t, x).value.item.id in m.store.rows
    ensures m.store.rows[After(m, t, x).value.item.id].subscription == After(m, t, x).value.item.subId
  {
    var q := OpOf(m, t, x).q;
    ClaimTakesEarliest(m.store, q);
    ClaimPutsToken(m.store, OpOf(m, t, x), NextRow(m.store, q).value);
  }

  lemma AfterDelivering(m: Machine, t: Task, x: Input)
    requires After(m, t, x).Some? && Delivering(After(m, t, x).value)
    ensures t.TickClaiming? || (t.TickPosting? && OpOf(m, t, x) == Idle && After(m, t, x).value.item == t.item
      && After(m, t, x).value.lane == t.lane)
    ensures After(m, t, x).value.TickCompleting? && After(m, t, x).value.result.WantsRetry? ==>
      After(m, t, x).value.result.nextAt ==
        After(m, t, x).value.result.at + RetryDelay(After(m, t, x).value.item.attempts)
  {
  }

  lemma ItemsStep(m: Machine, a: Action)
    requires ServiceInv(m) && ItemsSound(m) && Enabled(m, a)
    ensures ItemsSound(Apply(m, a))
  {
    hide Inv, Keyed, Exclusive, Readings, Synced, Next, Ready, After, OpOf, ItemSound, Allowed;
    var m' := Apply(m, a);
    StoreStep(m, a);
    forall i | i in m'.tasks && Delivering(m'.tasks[i]) ensures ItemSound(m'.store, m'.tasks[i]) {
      if i in m.tasks && m.tasks[i] == m'.tasks[i] {
        ItemSurvives(m.store, ActionOp(m, a), m.tasks[i]);
      } else {
        assert a.Step? && a.task == i;
        NewDelivery(m, i, a.x);
      }
    }
  }

  lemma NewDelivery(m: Machine, i: TaskId, x: Input)
    requires ServiceInv(m) && ItemsSound(m) && Enabled(m, Step(i, x))
    requires After(m, m.tasks[i], x).Some? && Delivering(After(m, m.tasks[i], x).value)
    ensures ItemSound(Next(m.store, OpOf(m, m.tasks[i], x)), After(m, m.tasks[i], x).value)
  {
    hide Inv, Keyed, Exclusive, Readings, Synced, Ready, After, OpOf;
    AfterDelivering(m, m.tasks[i], x);
    if m.tasks[i].TickClaiming? { ClaimedItemSound(m, m.tasks[i], x); }
  }

  lemma {:induction false} RunItemsSound(ms: seq<Machine>, acts: seq<Action>, i: nat)
    requires IsServiceRun(ms, acts) && i < |ms|
    ensures ItemsSound(ms[i])
  {
    hide ServiceInv, Apply, Enabled, ItemsSound;
    if i > 0 {
      RunItemsSound(ms, acts, i - 1);
      RunServiceInv(ms, acts, i - 1);
      ItemsStep(ms[i - 1], acts[i - 1]);
    }
  }

  /** From the commit of a revoke on, every post in flight for an MCP subscription is for a row
      created after it. */
  lemma {:induction false} NoRevokedPostInFlight(ms: seq<Machine>, acts: seq<Action>, i: nat, j: nat, k: TaskId)
    requires IsServiceRun(ms, acts) && i < j < |ms| && Revokes(ms[i], acts[i])
    requires k in ms[j].tasks && Delivering(ms[j].tasks[k]) && ms[j].tasks[k].item.subId.UrlSub?
    ensures ms[j].tasks[k].item.id !in ms[i].store.rows
    decreases j, 0
  {
    hide Keyed, Exclusive, Readings, Synced, Next, Ready, After, OpOf, Allowed, Inv, ItemsSound, Leases;
    var m := ms[j - 1];
    RunServiceInv(ms, acts, j - 1);
    if k in m.tasks && m.tasks[k] == ms[j].tasks[k] {
      if i + 1 < j {
        NoRevokedPostInFlight(ms, acts, i, j - 1, k);
      } else {
        RunItemsSound(ms, acts, i);
        RevokerAlone(m, acts[i], k);
      }
    } else {
      NewPost(ms, acts, i, j - 1, k);
    }
  }

  lemma RevokerAlone(m: Machine, a: Action, k: TaskId)
    requires Exclusive(m) && ItemsSound(m) && Revokes(m, a) && k in m.tasks && Delivering(m.tasks[k])
    ensures m.tasks[k].item.subId.EnvSub?
  {
    assert !HoldsRead(m.tasks[k]);
    assert ItemSound(m.store, m.tasks[k]);
  }

  lemma NewPost(ms: seq<Machine>, acts: seq<Action>, i: nat, j: nat, k: TaskId)
    requires IsServiceRun(ms, acts) && i <= j < |acts| && Revokes(ms[i], acts[i])
    requires k in ms[j + 1].tasks && Delivering(ms[j + 1].tasks[k]) && ms[j + 1].tasks[k].item.subId.UrlSub?
    requires !(k in ms[j].tasks && ms[j].tasks[k] == ms[j + 1].tasks[k])
    ensures ms[j + 1].tasks[k].item.id !in ms[i].store.rows
    decreases j, 1
  {
    hide Keyed, Exclusive, Readings, Synced, Next, Ready, After, OpOf, Inv, ItemsSound, Leases;
    RunServiceInv(ms, acts, j);
    var m, x := ms[j], acts[j].x;
    assert acts[j] == Step(k, x);
    AfterDelivering(m, m.tasks[k], x);
    if m.tasks[k].TickClaiming? {
      assert i < j;
      ClaimedItemSound(m, m.tasks[k], x);
      if ms[j + 1].tasks[k].item.id in ms[i].store.rows {
        ClaimedOldRow(ms, acts, i, j, ms[j + 1].tasks[k].item.id);
      }
    } else if i < j {
      NoRevokedPostInFlight(ms, acts, i, j, k);
    }
  }

  lemma ClaimedOldRow(ms: seq<Machine>, acts: seq<Action>, i: nat, j: nat, r: Uuid)
    requires IsServiceRun(ms, acts) && i < j < |acts| && Revokes(ms[i], acts[i]) && r in ms[i].store.rows
    requires r in ms[j].store.rows && ms[j].store.rows[r].subscription.UrlSub?
    ensures !Leases(ms[j].store, ActionOp(ms[j], acts[j]), r)
  {
    hide ServiceInv, ItemsSound, Apply, Enabled, Leases;
    StoreRun(ms, acts);
    RowOverTime(Stores(ms), Ops(ms, acts), i, j, r);
    RevokedRowsNeverClaimed(ms, acts, i, j, r);
  }

  // ---- a revoked subscription comes back only through a new subscribe ----

  /** No MCP subscription is active and no subscribe has passed the lifecycle gate. */
  ghost predicate Quiet(m: Machine)
  {
    && (forall id <- m.store.subs :: id.UrlSub? ==> !m.store.subs[id].active)
    && (forall k <- m.tasks :: !Subscribing(m.tasks[k]))
  }

  /** A subscribe passes the gate. */
  predicate PassesGate(m: Machine, a: Action) { a.Step? && a.task in m.tasks && m.tasks[a.task].SubStart? }

  lemma RevokeQuiets(m: Machine, a: Action)
    requires Keyed(m) && Exclusive(m) && Enabled(m, a) && Revokes(m, a)
    ensures Quiet(Apply(m, a))
  {
    hide Exclusive, HoldsRead, Subscribing, CancelKind, Allowed, KeyedTask;
    forall k | k in m.tasks ensures !Subscribing(m.tasks[k]) {
      RevokerHasNoReader(m, a, k);
      SubscribingReads(m.tasks[k]);
    }
    RevokeDoneIdle(OfKind(m.store, McpSubscription));
    KindCancelled(m.store, m.tasks[a.task].now);
  }

  lemma RevokeDoneIdle(ids: set<SubId>)
    ensures !Subscribing(RevokeDone(ids))
  {
  }

  lemma SubscribingReads(t: Task)
    ensures Subscribing(t) ==> HoldsRead(t)
  {
  }

  lemma KindCancelled(s: Store, now: int)
    requires forall id <- s.subs :: KeyedSub(id, s.subs[id])
    ensures forall id <- CancelKind(s, McpSubscription, now).subs :: id.UrlSub? ==>
      !CancelKind(s, McpSubscription, now).subs[id].active
  {
  }

  lemma QuietStep(m: Machine, a: Action)
    requires Keyed(m) && Quiet(m) && Enabled(m, a) && !PassesGate(m, a)
    ensures Quiet(Apply(m, a))
  {
    if a.Step? {
      assert KeyedTask(m.owner, m.tasks[a.task]);
      QuietOp(m, m.tasks[a.task], a.x);
      QuietTask(m, m.tasks[a.task], a.x);
    }
  }

  lemma QuietOp(m: Machine, t: Task, x: Input)
    requires Quiet(m) && KeyedTask(m.owner, t) && !Subscribing(t)
    ensures forall id <- Next(m.store, OpOf(m, t, x)).subs :: id.UrlSub? ==>
      !Next(m.store, OpOf(m, t, x)).subs[id].active
  {
  }

  lemma QuietTask(m: Machine, t: Task, x: Input)
    requires !Subscribing(t) && !t.SubStart?
    ensures After(m, t, x).Some? ==> !Subscribing(After(m, t, x).value)
  {
  }

  /** After a revoke commits, no MCP subscription is active again until some subscribe passes the
      lifecycle gate after it: a subscribe that was under way, even one whose request was dropped
      with its write still queued, cannot bring one back. */
  lemma {:induction false} RevokedUntilNewSubscribe(ms: seq<Machine>, acts: seq<Action>, i: nat, j: nat)
    requires IsServiceRun(ms, acts) && i < j < |ms| && Revokes(ms[i], acts[i])
    requires forall k | i < k < j :: !PassesGate(ms[k], acts[k])
    ensures Quiet(ms[j])
    decreases j
  {
    hide Quiet, Keyed, Exclusive, Readings, Synced, Inv, ItemsSound, Apply, Enabled, Revokes;
    RunServiceInv(ms, acts, j - 1);
    if i + 1 < j {
      RevokedUntilNewSubscribe(ms, acts, i, j - 1);
      QuietStep(ms[j - 1], acts[j - 1]);
    } else {
      RevokeQuiets(ms[i], acts[i]);
    }
  }

  // ---- the worker's retry budget ----

  lemma WorkerOps(ms: seq<Machine>, acts: seq<Action>, i: nat)
    requires IsServiceRun(ms, acts) && i < |acts| && ActionOp(ms[i], acts[i]).DoComplete?
    ensures var op := ActionOp(ms[i], acts[i]);
      && op.maxAttempts == MAX_ATTEMPTS
      && (Completes(ms[i].store, op) && op.result.WantsRetry? ==>
            op.result.nextAt == op.result.at + RetryDelay(ms[i].store.rows[op.row].attempts))
  {
    hide ServiceInv, Apply, Enabled;
    RunItemsSound(ms, acts, i);
    assert ItemSound(ms[i].store, ms[i].tasks[acts[i].task]);
  }

  /** In every run of the service a row is put back for retry at most 19 times, and every completion
      at 20 attempts or more is final, however many leases were abandoned. */
  lemma ServiceRetryBudget(ms: seq<Machine>, acts: seq<Action>, r: Uuid)
    requires IsServiceRun(ms, acts)
    ensures Retries(Stores(ms), Ops(ms, acts), r, |acts|) <= MAX_ATTEMPTS - 1
    ensures forall i | 0 <= i < |acts| :: FinalAtMaximum(ms[i].store, ActionOp(ms[i], acts[i]), ms[i + 1].store)
  {
    hide ServiceInv, ItemsSound, Apply, Enabled;
    StoreRun(ms, acts);
    forall i | 0 <= i < |acts| && ActionOp(ms[i], acts[i]).DoComplete?
      ensures ActionOp(ms[i], acts[i]).maxAttempts == MAX_ATTEMPTS
    {
      WorkerOps(ms, acts, i);
    }
    var ss, ops := Stores(ms), Ops(ms, acts);
    assert BoundedBy(ops, MAX_ATTEMPTS);
    RetryBudget(ss, ops, r);
    forall i | 0 <= i < |acts| ensures FinalAtMaximum(ms[i].store, ActionOp(ms[i], acts[i]), ms[i + 1].store) {
      assert ss[i] == ms[i].store && ops[i] == ActionOp(ms[i], acts[i]) && ss[i + 1] == ms[i + 1].store;
    }
  }

  /** A completion at the maximum or past it leaves the row delivered or dead-lettered. */
  ghost predicate FinalAtMaximum(s: Store, op: Op, t: Store)
  {
    Completes(s, op) && s.rows[op.row].attempts >= MAX_ATTEMPTS ==> op.row in t.rows && Terminal(t.rows[op.row].status)
  }

  /** In every run of the service that completes each claim of a row, a row given up after retryable
      outcomes was attempted exactly 20 times and was given exactly 3580 seconds of backoff. */
  lemma ServiceBackoff(ms: seq<Machine>, acts: seq<Action>, r: Uuid, i: nat)
    requires IsServiceRun(ms, acts) && i < |acts| && r !in ms[0].store.used
    requires EveryClaimCompleted(Stores(ms), Ops(ms, acts), r)
    requires var op := ActionOp(ms[i], acts[i]); Completes(ms[i].store, op) && op.row == r && op.result.WantsRetry?
    requires r in ms[i + 1].store.rows && ms[i + 1].store.rows[r].status == DeadLetter
    ensures ms[i + 1].store.rows[r].attempts == MAX_ATTEMPTS
    ensures Backoff(Stores(ms), Ops(ms, acts), r, i) == 3580
  {
    hide ServiceInv, ItemsSound, Apply, Enabled;
    StoreRun(ms, acts);
    var ss, ops := Stores(ms), Ops(ms, acts);
    forall k | 0 <= k < |acts| && ops[k].DoComplete?
      ensures ops[k].maxAttempts == MAX_ATTEMPTS
      ensures Completes(ss[k], ops[k]) && ops[k].result.WantsRetry? ==>
        ops[k].result.nextAt == ops[k].result.at + RetryDelay(ss[k].rows[ops[k].row].attempts)
    {
      WorkerOps(ms, acts, k);
    }
    assert BoundedBy(ops, MAX_ATTEMPTS);
    assert ScheduledByWorker(ss, ops);
    ExhaustedBackoff(ss, ops, r, i);
  }
}
