/** A cancelled row is never delivered: when that holds in the interleaved service, and exactly when it does not. */
module ServiceCancel {
  import opened Wrappers
  import opened Outbox
  import opened OutboxInvariants
  import opened OutboxRuns
  import opened Service
  import opened ServiceInvariants
  import opened ServiceRuns

  /** A subscribe of id that will write it without sweeping at c or later first. */
  predicate Midway(owner: string, t: Task, id: SubId, c: int)
  {
    match t
    case SubSweeping(req, now) => UrlSub(owner, req.url) == id && now < c
    case SubReading(req, _) => UrlSub(owner, req.url) == id
    case SubGranting(req, _, _) => UrlSub(owner, req.url) == id
    case SubWriting(k, _, _, _) => k == id
    case _ => false
  }

  ghost predicate AnyMidway(m: Machine, id: SubId, c: int)
  {
    exists k :: k in m.tasks && Midway(m.owner, m.tasks[k], id, c)
  }

  ghost predicate AllAttached(m: Machine) { forall k <- m.tasks :: Attached(m.tasks[k]) }

  /** Row r is deleted, or it stays out of reach until it is: its subscription is off, and whoever
      switches it on again sweeps the row away first. */
  ghost predicate Buried(m: Machine, r: Uuid, id: SubId, c: int)
  {
    && c <= Now(m) && r in m.store.used
    && (r in m.store.rows ==> BuriedRow(m.store, r, id, c) && !AnyMidway(m, id, c))
  }

  predicate BuriedRow(s: Store, r: Uuid, id: SubId, c: int)
    requires r in s.rows
  {
    s.rows[r].subscription == id && s.rows[r].expiresAt <= c && (id in s.subs ==> !s.subs[id].active)
  }

  lemma BuriedUnclaimable(s: Store, r: Uuid, id: SubId, c: int, op: Op)
    requires r in s.rows ==> BuriedRow(s, r, id, c)
    ensures !Leases(s, op, r)
  {
    if op.DoClaim? { ClaimTakesEarliest(s, op.q); }
  }

  /** A store transaction that neither writes id nor draws its ids twice leaves a buried row buried. */
  lemma BuriedRowStep(s: Store, op: Op, r: Uuid, id: SubId, c: int)
    requires Inv(s) && Ready(s, op) && r in s.rows && BuriedRow(s, r, id, c) && !(op.DoUpsert? && op.id == id)
    ensures r in Next(s, op).used && (r in Next(s, op).rows ==> BuriedRow(Next(s, op), r, id, c))
  {
    BuriedUnclaimable(s, r, id, c, op);
    if r in Next(s, op).rows {
      RowEvolves(s, op, r);
      InactiveStep(s, op, id);
    }
    UsedStep(s, op);
  }

  lemma UsedStep(s: Store, op: Op)
    ensures s.used <= Next(s, op).used
  {
  }

  lemma InactiveStep(s: Store, op: Op, id: SubId)
    requires id in s.subs ==> !s.subs[id].active
    requires !(op.DoUpsert? && op.id == id)
    ensures id in Next(s, op).subs ==> !Next(s, op).subs[id].active
  {
  }

  /** A subscribe gets midway only by sweeping, and a sweep at c or later takes the row with it. */
  lemma AfterMidway(m: Machine, t: Task, x: Input, id: SubId, c: int)
    requires c <= Now(m) && After(m, t, x).Some? && Midway(m.owner, After(m, t, x).value, id, c)
    ensures Midway(m.owner, t, id, c) || (t.SubSweeping? && t.now >= c)
  {
    hide Claimed, Interested, Granted, EnvRow, UpsertAllowed, OfKind, Lookup;
  }

  lemma DroppedMidway(owner: string, t: Task, id: SubId, c: int)
    requires Dropped(t).Some? && Midway(owner, Dropped(t).value, id, c)
    ensures Midway(owner, t, id, c)
  {
  }

  lemma FreshNotMidway(owner: string, t: Task, id: SubId, c: int)
    requires Fresh(t)
    ensures !Midway(owner, t, id, c)
  {
  }

  lemma OnlyMidwayWrites(m: Machine, t: Task, x: Input, id: SubId, c: int)
    requires KeyedTask(m.owner, t) && id.UrlSub? && OpOf(m, t, x).DoUpsert? && OpOf(m, t, x).id == id
    ensures Midway(m.owner, t, id, c)
  {
  }

  lemma SweepDeletes(s: Store, r: Uuid, now: int)
    requires r in s.rows && s.rows[r].expiresAt <= now
    ensures r !in Cleanup(s, now).rows
  {
  }

  lemma MidwayStep(m: Machine, a: Action, id: SubId, c: int)
    requires c <= Now(m) && Enabled(m, a) && !AnyMidway(m, id, c)
    requires !Sweeps(m, a, c)
    ensures !AnyMidway(Apply(m, a), id, c)
  {
    hide Allowed, After, Next, OpOf, CacheAfter, DirtyAfter, Midway, Dropped, Fresh;
    var m' := Apply(m, a);
    forall k | k in m'.tasks ensures !Midway(m'.owner, m'.tasks[k], id, c) {
      if k in m.tasks && m.tasks[k] == m'.tasks[k] {
      } else if Midway(m'.owner, m'.tasks[k], id, c) {
        match a
        case Advance(_) =>
        case Begin(_, t) => FreshNotMidway(m.owner, t, id, c);
        case Step(_, x) => AfterMidway(m, m.tasks[k], x, id, c);
        case Drop(_) => DroppedMidway(m.owner, m.tasks[k], id, c);
      }
    }
  }

  lemma BuriedStep(m: Machine, a: Action, r: Uuid, id: SubId, c: int)
    requires Inv(m.store) && Keyed(m) && Enabled(m, a) && id.UrlSub? && Buried(m, r, id, c)
    ensures Buried(Apply(m, a), r, id, c)
  {
    hide Inv, Keyed, Apply, Enabled, Next, Ready, OpOf, BuriedRow, AnyMidway, Now;
    StoreStep(m, a);
    ClockStep(m, a);
    var op := ActionOp(m, a);
    if r !in m.store.rows {
      DeletedStaysDeleted(m.store, op, r);
    } else if Sweeps(m, a, c) {
      SweepStep(m, a, r, id, c);
      UsedStep(m.store, op);
    } else {
      NotWritten(m, a, id, c);
      BuriedRowStep(m.store, op, r, id, c);
      MidwayStep(m, a, id, c);
    }
  }

  predicate Sweeps(m: Machine, a: Action, c: int)
  {
    a.Step? && a.task in m.tasks && m.tasks[a.task].SubSweeping? && m.tasks[a.task].now >= c
  }

  lemma SweepStep(m: Machine, a: Action, r: Uuid, id: SubId, c: int)
    requires Enabled(m, a) && Sweeps(m, a, c) && r in m.store.rows && BuriedRow(m.store, r, id, c)
    ensures r !in Apply(m, a).store.rows
  {
    SweepDeletes(m.store, r, m.tasks[a.task].now);
  }

  lemma NotWritten(m: Machine, a: Action, id: SubId, c: int)
    requires Keyed(m) && Enabled(m, a) && id.UrlSub? && !AnyMidway(m, id, c)
    ensures !(ActionOp(m, a).DoUpsert? && ActionOp(m, a).id == id)
  {
    hide Midway, OpOf;
    if a.Step? && ActionOp(m, a).DoUpsert? && ActionOp(m, a).id == id {
      KeyedTasks(m, a.task);
      OnlyMidwayWrites(m, m.tasks[a.task], a.x, id, c);
    }
  }

  lemma {:induction false} StaysBuried(ms: seq<Machine>, acts: seq<Action>, i: nat, j: nat, r: Uuid, id: SubId, c: int)
    requires IsServiceRun(ms, acts) && i <= j < |ms| && id.UrlSub? && Buried(ms[i], r, id, c)
    ensures Buried(ms[j], r, id, c)
  {
    hide Keyed, Exclusive, Readings, Synced, Inv, ItemsSound, Apply, Enabled, Buried;
    if i < j {
      StaysBuried(ms, acts, i, j - 1, r, id, c);
      RunServiceInv(ms, acts, j - 1);
      BuriedStep(ms[j - 1], acts[j - 1], r, id, c);
    }
  }

  // ---- the commit of a cancel ----

  lemma CancelBuries(m: Machine, a: Action, r: Uuid, c: int)
    requires ServiceInv(m) && Enabled(m, a) && CancelsRow(m, a, r, c)
    requires !AnyMidway(m, m.store.rows[r].subscription, c)
    ensures m.store.rows[r].subscription.UrlSub?
    ensures Buried(Apply(m, a), r, m.store.rows[r].subscription, c)
  {
    hide Inv, Exclusive, Synced, Next, Apply, Enabled, Readings, Keyed, AnyMidway;
    var id := m.store.rows[r].subscription;
    CancelledIsUrl(m, a, r, c);
    StoreStep(m, a);
    ClockStep(m, a);
    CancelReadsPast(m, a);
    assert r in m.store.used by { assert Inv(m.store); RowsDrawn(m.store, r); }
    CancelTakesRow(m.store, ActionOp(m, a), r);
    MidwayStep(m, a, id, c);
  }

  lemma RowsDrawn(s: Store, r: Uuid)
    requires Inv(s) && r in s.rows
    ensures r in s.used
  {
  }

  lemma CancelledIsUrl(m: Machine, a: Action, r: Uuid, c: int)
    requires Keyed(m) && Enabled(m, a) && CancelsRow(m, a, r, c)
    ensures m.store.rows[r].subscription.UrlSub?
    ensures a.Step? && (m.tasks[a.task].UnsubCancelling? || m.tasks[a.task].RevokeCancelling?)
  {
    KeyedTasks(m, a.task);
  }

  lemma CancelTakesRow(s: Store, op: Op, r: Uuid)
    requires (op.DoCancel? || op.DoCancelKind?) && r in s.rows && s.rows[r].subscription in Cancelled(s, op)
    ensures Next(s, op).used == s.used && r in Next(s, op).rows
    ensures BuriedRow(Next(s, op), r, s.rows[r].subscription, op.now)
  {
  }

  /** A cancelled row is leased again only by a claim that had read its clock before the cancel did,
      and only if a subscribe of the same id stood between its sweep and its write when the cancel
      committed. The mutex around the cache keeps the two apart, so one of them had been dropped and
      left its store call running. */
  lemma CancelledRowNeedsDetachedCall(ms: seq<Machine>, acts: seq<Action>, i: nat, j: nat, r: Uuid, c: int)
    requires IsServiceRun(ms, acts) && i < j < |acts| && CancelsRow(ms[i], acts[i], r, c)
    requires Leases(ms[j].store, ActionOp(ms[j], acts[j]), r)
    ensures AnyMidway(ms[i], ms[i].store.rows[r].subscription, c) && !AllAttached(ms[i])
    ensures acts[j].Step? && acts[j].task in ms[i].tasks && acts[j].task in ms[j].tasks
    ensures ms[j].tasks[acts[j].task].TickClaiming? && ms[i].tasks[acts[j].task] == ms[j].tasks[acts[j].task]
    ensures ms[j].tasks[acts[j].task].now < c
  {
    hide Keyed, Exclusive, Readings, Synced, Inv, ItemsSound, Apply, Enabled, Buried, AnyMidway, AllAttached,
      CancelsRow, Leases, ActionOp;
    CancelledRowsOnlyStaleClaims(ms, acts, i, j, r, c);
    RunServiceInv(ms, acts, i);
    assert r in ms[i].store.rows by { CancelHasRow(ms[i], acts[i], r, c); }
    var id := ms[i].store.rows[r].subscription;
    if !AnyMidway(ms[i], id, c) {
      CancelBuries(ms[i], acts[i], r, c);
      StaysBuried(ms, acts, i + 1, j, r, id, c);
      BuriedNeverLeased(ms[j], acts[j], r, id, c);
    } else if AllAttached(ms[i]) {
      MidwayExcluded(ms[i], acts[i], r, c);
    }
  }

  lemma CancelHasRow(m: Machine, a: Action, r: Uuid, c: int)
    requires CancelsRow(m, a, r, c)
    ensures r in m.store.rows
  {
  }

  lemma BuriedNeverLeased(m: Machine, a: Action, r: Uuid, id: SubId, c: int)
    requires Buried(m, r, id, c)
    ensures !Leases(m.store, ActionOp(m, a), r)
  {
    hide AnyMidway, ActionOp, BuriedRow;
    BuriedUnclaimable(m.store, r, id, c, ActionOp(m, a));
  }

  lemma MidwayHoldsCache(owner: string, t: Task, id: SubId, c: int)
    requires Midway(owner, t, id, c) && Attached(t)
    ensures HoldsCache(t) && !t.UnsubCancelling? && !t.RevokeCancelling?
  {
  }

  lemma CancellerHoldsCache(t: Task)
    requires (t.UnsubCancelling? || t.RevokeCancelling?) && Attached(t)
    ensures HoldsCache(t)
  {
  }

  /** A canceller and a subscribe past its sweep both hold the mutex. */
  lemma MidwayExcluded(m: Machine, a: Action, r: Uuid, c: int)
    requires Keyed(m) && Exclusive(m) && Enabled(m, a) && CancelsRow(m, a, r, c) && AllAttached(m)
    ensures !AnyMidway(m, m.store.rows[r].subscription, c)
  {
    hide Keyed, HoldsRead, HoldsWrite, Midway, HoldsCache, EnvTask;
    CancelledIsUrl(m, a, r, c);
    CancellerHoldsCache(m.tasks[a.task]);
    var id := m.store.rows[r].subscription;
    forall k | k in m.tasks ensures !Midway(m.owner, m.tasks[k], id, c) {
      if Midway(m.owner, m.tasks[k], id, c) {
        MidwayHoldsCache(m.owner, m.tasks[k], id, c);
        assert false;
      }
    }
  }

  /** An unsubscribe or a revoke that commits while no dropped request has a store call running is
      final for every row it cancels: no claim ever returns one again, stale claims, re-subscribing
      the same id, requests dropped later and restarts included. */
  lemma CancelledRowsNeverClaimed(ms: seq<Machine>, acts: seq<Action>, i: nat, j: nat, r: Uuid, c: int)
    requires IsServiceRun(ms, acts) && i < j < |acts| && CancelsRow(ms[i], acts[i], r, c) && AllAttached(ms[i])
    ensures !Leases(ms[j].store, ActionOp(ms[j], acts[j]), r)
  {
    hide ServiceInv, ItemsSound, Apply, Enabled, CancelsRow, AllAttached, Leases, ActionOp;
    if Leases(ms[j].store, ActionOp(ms[j], acts[j]), r) {
      CancelledRowNeedsDetachedCall(ms, acts, i, j, r, c);
    }
  }

  // ---- runs without detached calls ----

  /** No call was detached to begin with, and whatever is dropped had no store call running. */
  ghost predicate NoneDetached(ms: seq<Machine>, acts: seq<Action>)
    requires |ms| == |acts| + 1
  {
    && AllAttached(ms[0])
    && forall n | 0 <= n < |acts| && acts[n].Drop? && acts[n].task in ms[n].tasks ::
         Dropped(ms[n].tasks[acts[n].task]).None?
  }

  lemma AfterAttached(m: Machine, t: Task, x: Input)
    requires Attached(t) && After(m, t, x).Some?
    ensures Attached(After(m, t, x).value)
  {
    hide Claimed, Interested, Granted, EnvRow, UpsertAllowed, OfKind, Lookup;
  }

  lemma AttachedStep(m: Machine, a: Action)
    requires Enabled(m, a) && AllAttached(m) && (a.Drop? ==> Dropped(m.tasks[a.task]).None?)
    ensures AllAttached(Apply(m, a))
  {
    hide Allowed, After, Next, OpOf, CacheAfter, DirtyAfter;
    if a.Step? && After(m, m.tasks[a.task], a.x).Some? { AfterAttached(m, m.tasks[a.task], a.x); }
  }

  lemma {:induction false} RunAttached(ms: seq<Machine>, acts: seq<Action>, i: nat)
    requires IsServiceRun(ms, acts) && NoneDetached(ms, acts) && i < |ms|
    ensures AllAttached(ms[i])
  {
    hide ServiceInv, ItemsSound, Apply, AllAttached;
    if i > 0 {
      RunAttached(ms, acts, i - 1);
      AttachedStep(ms[i - 1], acts[i - 1]);
    }
  }

  /** So in every interleaving in which no dropped request leaves a store call running, once an
      unsubscribe or a revoke has committed none of the rows it found is ever claimed again. */
  lemma UnsubscribedRowsNeverClaimed(ms: seq<Machine>, acts: seq<Action>, i: nat, j: nat, r: Uuid, c: int)
    requires IsServiceRun(ms, acts) && NoneDetached(ms, acts) && i < j < |acts| && CancelsRow(ms[i], acts[i], r, c)
    ensures !Leases(ms[j].store, ActionOp(ms[j], acts[j]), r)
  {
    hide ServiceInv, ItemsSound, Apply, Enabled, NoneDetached, CancelsRow, AllAttached, Leases, ActionOp;
    RunAttached(ms, acts, i);
    CancelledRowsNeverClaimed(ms, acts, i, j, r, c);
  }

  // ---- what a detached write does ----

  /** The exact condition. A cancel of row r is about to commit, a subscribe of the same id has its
      write queued, and a claim in flight would take r. Cancel, write and claim, in that order, lease r
      if and only if the claim read its clock before the cancel did and the written subscription is
      unexpired at that reading and under the service's credential. */
  lemma QueuedWriteRevivesRowIffClockOlder(m: Machine, a: Action, w: TaskId, k: TaskId, x: Input, y: Input, r: Uuid,
    c: int)
    requires ServiceInv(m) && Enabled(m, a) && CancelsRow(m, a, r, c) && w in m.tasks && k in m.tasks
    requires m.tasks[w].SubWriting? && m.tasks[w].id == m.store.rows[r].subscription
    requires m.tasks[k].TickClaiming? && y.token !in m.store.used
    requires IsNext(m.store, LaneQuery(m, m.tasks[k].lane, m.tasks[k].now, y.token), r)
    ensures Enabled(Apply(m, a), Step(w, x)) && Enabled(Apply(Apply(m, a), Step(w, x)), Step(k, y))
    ensures var before := Apply(Apply(m, a), Step(w, x));
      Leases(before.store, ActionOp(before, Step(k, y)), r) <==>
      && m.tasks[k].now < c && Unexpired(m.tasks[w].sub.expiresAt, m.tasks[k].now)
      && m.tasks[w].sub.fingerprint == m.fingerprint
  {
    hide Inv, Exclusive, Readings, Synced, IsNext, NextRow, Cancelled, Next, Upsert;
    CancelledIsUrl(m, a, r, c);
    KeyedTasks(m, w);
    var id, sub, t := m.tasks[w].id, m.tasks[w].sub, m.tasks[k];
    var m1 := Apply(m, a);
    assert w in m1.tasks && m1.tasks[w] == m.tasks[w] && k in m1.tasks && m1.tasks[k] == t;
    assert Enabled(m1, Step(w, x));
    var m2 := Apply(m1, Step(w, x));
    assert k in m2.tasks && m2.tasks[k] == t;
    UsedAfterCancel(m.store, ActionOp(m, a), id, sub);
    var q := LaneQuery(m, t.lane, t.now, y.token);
    assert m2.store == Upsert(Next(m.store, ActionOp(m, a)), id, sub) by { NextUpsert(m1.store, id, sub); }
    assert Claimable(m.store, q, r) by { assert IsNext(m.store, q, r); NextIsClaimable(m.store, q, r); }
    assert KeyedSub(id, m.store.subs[id]);
    RewrittenRowClaimedIffClockOlder(m.store, ActionOp(m, a), sub, q, r);
  }

  lemma NextIsClaimable(s: Store, q: Query, r: Uuid)
    requires IsNext(s, q, r)
    ensures Claimable(s, q, r)
  {
  }

  lemma NextUpsert(s: Store, id: SubId, sub: Subscription)
    ensures Next(s, DoUpsert(id, sub)) == Upsert(s, id, sub)
  {
  }

  lemma UsedAfterCancel(s: Store, op: Op, id: SubId, sub: Subscription)
    requires op.DoCancel? || op.DoCancelKind?
    ensures Upsert(Next(s, op), id, sub).used == s.used
  {
  }
}
