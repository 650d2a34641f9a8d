/** Which secrets sign a delivery in every run of the service. */
module ServiceSigners {
  import opened Wrappers
  import opened Outbox
  import opened OutboxInvariants
  import opened OutboxRuns
  import opened OutboxHistory
  import opened Rotation
  import opened RotationRuns
  import opened Service
  import opened ServiceInvariants
  import opened ServiceRuns
  import opened ServiceCancel
  import opened ServiceRotation

  /** The clock reading behind the rotation columns of a write. */
  function WriteReading(m: Machine, a: Action): int
  {
    if a.Step? && a.task in m.tasks && m.tasks[a.task].SubWriting? then m.tasks[a.task].now
    else if a.Step? && a.task in m.tasks && m.tasks[a.task].EnvWriting? then m.tasks[a.task].now
    else Now(m)
  }

  function WriteReadings(ms: seq<Machine>, acts: seq<Action>): seq<int>
    requires |acts| < |ms|
  {
    seq(|acts|, i requires 0 <= i < |acts| => WriteReading(ms[i], acts[i]))
  }

  // ---- the environment webhook rotates the stored row ----

  predicate EnvCurrent(m: Machine, t: Task) { t.EnvWriting? ==> ProofFrom(Lookup(m, t.id), t.sub, t.now) }

  ghost predicate EnvsCurrent(m: Machine) { forall k <- m.tasks :: EnvCurrent(m, m.tasks[k]) }

  lemma EnvRowKept(m: Machine, i: TaskId, x: Input, j: TaskId)
    requires Keyed(m) && Exclusive(m) && AllAttached(m) && i in m.tasks && j in m.tasks && i != j
    requires m.tasks[j].EnvWriting?
    ensures Lookup(m.(store := Next(m.store, OpOf(m, m.tasks[i], x))), m.tasks[j].id) == Lookup(m, m.tasks[j].id)
  {
    hide Keyed, Exclusive, Next, OpOf, Written, Lookup, Attached;
    var id := m.tasks[j].id;
    KeyedTasks(m, i);
    KeyedTasks(m, j);
    if id in Written(m, m.tasks[i]) {
      AttachedNotDetached(m.tasks[i]);
      KeyedIds(m, m.tasks[i], id);
      OneEnv(m, i, j);
    } else {
      UnwrittenRow(m, m.tasks[i], x, id);
      EnvNeverExpires(m, id);
    }
  }

  lemma OneEnv(m: Machine, i: TaskId, j: TaskId)
    requires Exclusive(m) && i in m.tasks && j in m.tasks && EnvTask(m.tasks[i]) && EnvTask(m.tasks[j])
    ensures i == j
  {
  }

  lemma EnvNeverExpires(m: Machine, id: SubId)
    requires Keyed(m) && id.EnvSub?
    ensures Lookup(m, id).Some? ==> Lookup(m, id).value.expiresAt.None?
  {
  }

  lemma EnvAfter(m: Machine, t: Task, x: Input)
    requires After(m, t, x).Some?
    ensures EnvCurrent(m.(store := Next(m.store, OpOf(m, t, x))), After(m, t, x).value)
  {
  }

  lemma EnvSame(m: Machine, m': Machine, t: Task)
    requires m.store == m'.store
    ensures EnvCurrent(m, t) == EnvCurrent(m', t)
  {
  }

  lemma EnvsCurrentStep(m: Machine, a: Action)
    requires Keyed(m) && Exclusive(m) && AllAttached(m) && EnvsCurrent(m) && Enabled(m, a)
    ensures EnvsCurrent(Apply(m, a))
  {
    hide Keyed, Exclusive, AllAttached, Allowed, After, Next, OpOf, CacheAfter, DirtyAfter, Lookup, ProofFrom;
    var m' := Apply(m, a);
    forall k | k in m'.tasks ensures EnvCurrent(m', m'.tasks[k]) {
      match a
      case Step(i, x) =>
        var stepped := m.(store := m'.store);
        if k == i { EnvAfter(m, m.tasks[i], x); } else if m.tasks[k].EnvWriting? { EnvRowKept(m, i, x, k); }
        EnvSame(stepped, m', m'.tasks[k]);
      case Begin(_, _) => if k in m.tasks { EnvSame(m, m', m'.tasks[k]); }
      case Restart(_, _) =>
      case _ => if m'.tasks[k].EnvWriting? { EnvSame(m, m', m'.tasks[k]); }
    }
  }

  lemma {:induction false} RunEnvsCurrent(ms: seq<Machine>, acts: seq<Action>, i: nat)
    requires IsServiceRun(ms, acts) && NoneDetached(ms, acts) && ms[0].tasks == map[] && i < |ms|
    ensures EnvsCurrent(ms[i])
  {
    hide Keyed, Exclusive, Readings, Synced, Inv, ItemsSound, Apply, Enabled, EnvCurrent, AllAttached, NoneDetached;
    if i > 0 {
      RunEnvsCurrent(ms, acts, i - 1);
      RunServiceInv(ms, acts, i - 1);
      RunAttached(ms, acts, i - 1);
      EnvsCurrentStep(ms[i - 1], acts[i - 1]);
    }
  }

  // ---- writes of one id read their clocks in order ----

  /** A call that will write id, or one of its kind, read its clock at a or later. */
  predicate ReadSinceWrite(t: Task, id: SubId, a: int)
  {
    match t
    case SubSweeping(_, now) => id.UrlSub? ==> now >= a
    case SubReading(_, now) => id.UrlSub? ==> now >= a
    case SubGranting(_, now, _) => id.UrlSub? ==> now >= a
    case SubWriting(_, _, now, _) => id.UrlSub? ==> now >= a
    case EnvReading(_, now) => id.EnvSub? ==> now >= a
    case EnvWriting(_, _, now) => id.EnvSub? ==> now >= a
    case _ => true
  }

  ghost predicate AllSinceWrite(m: Machine, id: SubId, a: int)
  {
    forall k <- m.tasks :: ReadSinceWrite(m.tasks[k], id, a)
  }

  /** The write of id by call k. */
  ghost predicate WritesId(m: Machine, a: Action, id: SubId)
  {
    Writes(m.store, ActionOp(m, a), id)
  }

  lemma WriterOf(m: Machine, a: Action, id: SubId)
    requires Keyed(m) && Enabled(m, a) && WritesId(m, a, id)
    ensures a.Step? && a.task in m.tasks && ActionOp(m, a).sub.active
    ensures if id.EnvSub? then m.tasks[a.task].EnvWriting? else m.tasks[a.task].SubWriting?
    ensures (m.tasks[a.task].EnvWriting? || m.tasks[a.task].SubWriting?) && m.tasks[a.task].id == id
    ensures m.tasks[a.task].sub == ActionOp(m, a).sub && m.tasks[a.task].now == WriteReading(m, a)
  {
    KeyedTasks(m, a.task);
  }

  lemma WriterAlone(m: Machine, a: Action, id: SubId)
    requires Keyed(m) && Exclusive(m) && AllAttached(m) && Enabled(m, a) && WritesId(m, a, id)
    ensures AllSinceWrite(Apply(m, a), id, WriteReading(m, a))
  {
    hide Keyed, WritesId, ActionOp, Next, Allowed, DirtyAfter, CacheAfter, WriteReading;
    WriterOf(m, a, id);
    var m' := Apply(m, a);
    var w := m.tasks[a.task];
    assert HoldsCache(w) || EnvTask(w);
    forall k | k in m'.tasks ensures ReadSinceWrite(m'.tasks[k], id, WriteReading(m, a)) {
      if k != a.task { OthersNotPast(m, a.task, k, id, WriteReading(m, a)); }
    }
  }

  lemma OthersNotPast(m: Machine, w: TaskId, k: TaskId, id: SubId, a: int)
    requires Exclusive(m) && AllAttached(m) && w in m.tasks && k in m.tasks && k != w
    requires if id.EnvSub? then m.tasks[w].EnvWriting? else m.tasks[w].SubWriting?
    ensures ReadSinceWrite(m.tasks[k], id, a)
  {
    assert Attached(m.tasks[w]) && Attached(m.tasks[k]);
    if id.UrlSub? { assert HoldsCache(m.tasks[w]); }
  }

  lemma AfterSinceWrite(m: Machine, t: Task, x: Input, id: SubId, a: int)
    requires ReadSinceWrite(t, id, a) && a <= Now(m) && After(m, t, x).Some?
    ensures ReadSinceWrite(After(m, t, x).value, id, a)
  {
    hide Claimed, Interested, Granted, EnvRow, UpsertAllowed, OfKind, Lookup;
  }

  lemma FreshSinceWrite(t: Task, id: SubId, a: int)
    requires Fresh(t)
    ensures ReadSinceWrite(t, id, a)
  {
  }

  lemma DroppedSinceWrite(t: Task, id: SubId, a: int)
    requires ReadSinceWrite(t, id, a) && Dropped(t).Some?
    ensures ReadSinceWrite(Dropped(t).value, id, a)
  {
  }

  lemma SinceWriteStep(m: Machine, act: Action, id: SubId, a: int)
    requires Enabled(m, act) && AllSinceWrite(m, id, a) && a <= Now(m)
    ensures AllSinceWrite(Apply(m, act), id, a)
  {
    hide Allowed, After, Next, OpOf, CacheAfter, DirtyAfter, ReadSinceWrite, Fresh, Dropped;
    var m' := Apply(m, act);
    forall k | k in m'.tasks ensures ReadSinceWrite(m'.tasks[k], id, a) {
      if k in m.tasks && m.tasks[k] == m'.tasks[k] {
      } else {
        match act
        case Advance(_) =>
        case Begin(_, t) => FreshSinceWrite(t, id, a);
        case Step(i, x) => AfterSinceWrite(m, m.tasks[i], x, id, a);
        case Drop(i) => DroppedSinceWrite(m.tasks[i], id, a);
      }
    }
  }

  lemma ReadingInPast(m: Machine, a: Action, id: SubId)
    requires Keyed(m) && Readings(m) && Enabled(m, a) && WritesId(m, a, id)
    ensures WriteReading(m, a) <= Now(m)
  {
    hide Keyed, WritesId;
    WriterOf(m, a, id);
    assert ReadInPast(m, m.tasks[a.task]);
  }

  lemma {:induction false} SinceWriteRun(ms: seq<Machine>, acts: seq<Action>, i: nat, j: nat, id: SubId)
    requires IsServiceRun(ms, acts) && NoneDetached(ms, acts) && i < j < |ms| && WritesId(ms[i], acts[i], id)
    ensures AllSinceWrite(ms[j], id, WriteReading(ms[i], acts[i]))
    decreases j
  {
    hide Keyed, Exclusive, Readings, Synced, Inv, ItemsSound, Apply, Enabled, AllSinceWrite, AllAttached,
      NoneDetached, WritesId, WriteReading, Now;
    RunServiceInv(ms, acts, i);
    if j == i + 1 {
      RunAttached(ms, acts, i);
      WriterAlone(ms[i], acts[i], id);
    } else {
      SinceWriteRun(ms, acts, i, j - 1, id);
      ReadingInPast(ms[i], acts[i], id);
      ServiceRuns.ClockMonotone(ms, acts, i, j - 1);
      SinceWriteStep(ms[j - 1], acts[j - 1], id, WriteReading(ms[i], acts[i]));
    }
  }

  /** Two writes of one id read their clocks in the order in which they were made. */
  lemma WritesInOrder(ms: seq<Machine>, acts: seq<Action>, i: nat, j: nat, id: SubId)
    requires IsServiceRun(ms, acts) && NoneDetached(ms, acts) && i < j < |acts|
    requires WritesId(ms[i], acts[i], id) && WritesId(ms[j], acts[j], id)
    ensures WriteReading(ms[i], acts[i]) <= WriteReading(ms[j], acts[j])
  {
    hide Keyed, Exclusive, Readings, Synced, Inv, ItemsSound, Apply, NoneDetached, WritesId, WriteReading;
    SinceWriteRun(ms, acts, i, j, id);
    RunServiceInv(ms, acts, j);
    WriterOf(ms[j], acts[j], id);
    assert ReadSinceWrite(ms[j].tasks[acts[j].task], id, WriteReading(ms[i], acts[i]));
  }

  // ---- what signs a delivery ----

  /** Action i writes a rotation carried over from a row that has been swept since it was read. */
  ghost predicate LapsedWrite(ms: seq<Machine>, acts: seq<Action>, i: nat)
    requires |ms| == |acts| + 1 && i < |acts|
  {
    && acts[i].Step? && WritesNow(ms[i], acts[i], acts[i].task)
    && var k := acts[i].task;
    exists p: nat :: ReadAt(ms, acts, p, i, k) && CarriedAndLapsed(ms, acts, p, i, ms[i].tasks[k])
  }

  ghost predicate CarriedAndLapsed(ms: seq<Machine>, acts: seq<Action>, p: nat, i: nat, t: Task)
    requires |ms| == |acts| + 1 && p < i <= |acts| && t.SubWriting?
  {
    CarriesOver(Lookup(ms[p], t.id), t.sub.secret, t.now) && Lapsed(ms, acts, p, i, Lookup(ms[p], t.id))
  }

  /** A lapsed write of id is still felt after n actions: it set the rotation, and since then the
      subscription stayed active and every write of it had the same secret. */
  ghost predicate StillCarried(ms: seq<Machine>, acts: seq<Action>, id: SubId, n: nat)
    requires |ms| == |acts| + 1 && n <= |acts|
  {
    if n == 0 then false
    else if WritesId(ms[n - 1], acts[n - 1], id) then
      || LapsedWrite(ms, acts, n - 1)
      || (StillCarried(ms, acts, id, n - 1) && Active(ms[n - 1].store, id)
          && ms[n - 1].store.subs[id].secret == ActionOp(ms[n - 1], acts[n - 1]).sub.secret)
    else StillCarried(ms, acts, id, n - 1) && Active(ms[n].store, id)
  }

  /** A write that has not lapsed rotates the row the store holds. */
  lemma WriteRotates(ms: seq<Machine>, acts: seq<Action>, i: nat, id: SubId)
    requires IsServiceRun(ms, acts) && NoneDetached(ms, acts) && ms[0].tasks == map[] && i < |acts|
    requires WritesId(ms[i], acts[i], id) && !LapsedWrite(ms, acts, i)
    ensures ActionOp(ms[i], acts[i]).sub.active
    ensures ProofFrom(Lookup(ms[i], id), ActionOp(ms[i], acts[i]).sub, WriteReading(ms[i], acts[i]))
  {
    hide Keyed, Exclusive, Readings, Synced, Inv, ItemsSound, Apply, NoneDetached, WritesId, WriteReading, ProofFrom,
      Lookup, ActionOp, ReadAt, Lapsed, CarriesOver, Enabled;
    RunServiceInv(ms, acts, i);
    assert Enabled(ms[i], acts[i]);
    WriterOf(ms[i], acts[i], id);
    var k := acts[i].task;
    if ms[i].tasks[k].EnvWriting? {
      RunEnvsCurrent(ms, acts, i);
      assert EnvCurrent(ms[i], ms[i].tasks[k]);
    } else {
      var p := SubscribeRotatesStoredRow(ms, acts, i, k);
      assert p < i by { ReadBefore(ms, acts, p, i, k); }
      assert !CarriedAndLapsed(ms, acts, p, i, ms[i].tasks[k]);
    }
  }

  lemma ReadBefore(ms: seq<Machine>, acts: seq<Action>, p: nat, i: nat, k: TaskId)
    requires |ms| == |acts| + 1 && ReadAt(ms, acts, p, i, k)
    ensures p < i
  {
  }

  /** A lapsed write finds no row and carries something over. */
  lemma LapsedFindsNothing(ms: seq<Machine>, acts: seq<Action>, i: nat, id: SubId)
    requires IsServiceRun(ms, acts) && NoneDetached(ms, acts) && i < |acts|
    requires WritesId(ms[i], acts[i], id) && LapsedWrite(ms, acts, i)
    ensures Lookup(ms[i], id).None?
    ensures !ProofFrom(Lookup(ms[i], id), ActionOp(ms[i], acts[i]).sub, WriteReading(ms[i], acts[i]))
  {
    hide Keyed, Exclusive, Readings, Synced, Inv, ItemsSound, Apply, Enabled, NoneDetached, Lapsed, WritesId,
      WriteReading, Lookup, ActionOp;
    RunServiceInv(ms, acts, i);
    assert Enabled(ms[i], acts[i]);
    WriterOf(ms[i], acts[i], id);
    var k := acts[i].task;
    var p: nat :| ReadAt(ms, acts, p, i, k) && CarriedAndLapsed(ms, acts, p, i, ms[i].tasks[k]);
    RowSinceRead(ms, acts, p, i, k);
  }

  /** Writes are odd exactly when they lapsed, and then find no row. */
  lemma OddIffLapsed(ms: seq<Machine>, acts: seq<Action>, i: nat, id: SubId)
    requires IsServiceRun(ms, acts) && NoneDetached(ms, acts) && ms[0].tasks == map[] && i < |acts|
    requires WritesId(ms[i], acts[i], id)
    ensures ActionOp(ms[i], acts[i]).DoUpsert? && ActionOp(ms[i], acts[i]).sub.active
    ensures Odd(ms[i].store, ActionOp(ms[i], acts[i]), WriteReading(ms[i], acts[i]), id) <==> LapsedWrite(ms, acts, i)
    ensures LapsedWrite(ms, acts, i) ==> !Active(ms[i].store, id)
  {
    hide ServiceInv, ItemsSound, Apply, NoneDetached, LapsedWrite, WriteReading, ProofFrom, ActionOp, Enabled;
    RunServiceInv(ms, acts, i);
    InvParts(ms[i]);
    assert Enabled(ms[i], acts[i]);
    WriterOf(ms[i], acts[i], id);
    if LapsedWrite(ms, acts, i) { LapsedFindsNothing(ms, acts, i, id); } else { WriteRotates(ms, acts, i, id); }
  }

  lemma {:induction false} CarriedIsStale(ms: seq<Machine>, acts: seq<Action>, id: SubId, n: nat)
    requires IsServiceRun(ms, acts) && NoneDetached(ms, acts) && ms[0].tasks == map[] && n <= |acts|
    ensures StillCarried(ms, acts, id, n) <==> Stale(Stores(ms), Ops(ms, acts), WriteReadings(ms, acts), id, n)
  {
    hide ServiceInv, ItemsSound, Apply, Enabled, NoneDetached, LapsedWrite, WriteReading, Odd, ActionOp;
    if n > 0 {
      CarriedIsStale(ms, acts, id, n - 1);
      var ss, ops, at := Stores(ms), Ops(ms, acts), WriteReadings(ms, acts);
      assert ss[n - 1] == ms[n - 1].store && ops[n - 1] == ActionOp(ms[n - 1], acts[n - 1]) && ss[n] == ms[n].store;
      assert at[n - 1] == WriteReading(ms[n - 1], acts[n - 1]);
      if WritesId(ms[n - 1], acts[n - 1], id) { OddIffLapsed(ms, acts, n - 1, id); }
    }
  }

  // ---- readings since the start ----

  lemma {:induction false} SinceStart(ms: seq<Machine>, acts: seq<Action>, i: nat, id: SubId)
    requires IsServiceRun(ms, acts) && ms[0].tasks == map[] && i < |ms|
    ensures AllSinceWrite(ms[i], id, Now(ms[0]))
  {
    hide ServiceInv, ItemsSound, Apply, Enabled, ReadSinceWrite, Now;
    if i > 0 {
      SinceStart(ms, acts, i - 1, id);
      ServiceRuns.ClockMonotone(ms, acts, 0, i - 1);
      SinceWriteStep(ms[i - 1], acts[i - 1], id, Now(ms[0]));
    }
  }

  lemma WriteAfterStart(ms: seq<Machine>, acts: seq<Action>, i: nat, id: SubId)
    requires IsServiceRun(ms, acts) && ms[0].tasks == map[] && i < |acts| && WritesId(ms[i], acts[i], id)
    ensures Now(ms[0]) <= WriteReading(ms[i], acts[i]) <= Now(ms[i])
  {
    hide Keyed, Exclusive, Readings, Synced, Inv, ItemsSound, Apply, WritesId, WriteReading, Now;
    RunServiceInv(ms, acts, i);
    assert Enabled(ms[i], acts[i]);
    WriterOf(ms[i], acts[i], id);
    SinceStart(ms, acts, i, id);
    assert ReadSinceWrite(ms[i].tasks[acts[i].task], id, Now(ms[0]));
    ReadingInPast(ms[i], acts[i], id);
  }

  // ---- the theorem ----

  /** What the row found at the start says of its past, the writes of id with the secrets they wrote,
      and the points where it stopped being active. */
  ghost function ServiceHistory(ms: seq<Machine>, acts: seq<Action>, id: SubId, n: nat): seq<Rotation.Event>
    requires |ms| == |acts| + 1 && n <= |acts|
  {
    HistoryOf(Stores(ms), Ops(ms, acts), WriteReadings(ms, acts), id, FoundHistory(Lookup(ms[0], id), Now(ms[0])), n)
  }

  /** In every interleaving in which no dropped request leaves a store call running, restarts included:
      an active subscription is signed as its history says, with the secret last written and, exactly
      while less than 600 seconds have passed since that secret replaced another, with that one, if and
      only if no lapsed write is still felt or the old secret it carried over is absent or has run out. */
  lemma ActiveSigners(ms: seq<Machine>, acts: seq<Action>, id: SubId, n: nat, t: int)
    requires IsServiceRun(ms, acts) && NoneDetached(ms, acts) && ms[0].tasks == map[] && n <= |acts| && t >= Now(ms[n])
    requires Active(ms[n].store, id) && (Active(ms[0].store, id) ==> Shaped(ms[0].store.subs[id], Now(ms[0])))
    ensures var h := ServiceHistory(ms, acts, id, n);
      && h != [] && h[|h| - 1].Wrote?
      && var sub := ms[n].store.subs[id];
      (Signers(sub, t) == Expected(h, t) <==>
        || !StillCarried(ms, acts, id, n)
        || sub.oldSecret.None? || sub.oldSecretExpiresAt.None? || sub.oldSecretExpiresAt.value <= t)
  {
    hide ServiceInv, ItemsSound, Apply, Enabled, NoneDetached, LapsedWrite, WriteReading, Writes, Signers, Expected,
      HistoryOf, IsRun, ActionOp, Now, Stale, StillCarried, Odd, FoundHistory, Shaped;
    var ss, ops, at, now := Stores(ms), Ops(ms, acts), WriteReadings(ms, acts), Now(ms[0]);
    StoreRun(ms, acts);
    CarriedIsStale(ms, acts, id, n);
    ServiceRuns.ClockMonotone(ms, acts, 0, n);
    forall i | 0 <= i < n && Writes(ss[i], ops[i], id)
      ensures ops[i].DoUpsert? && ops[i].sub.active && (Odd(ss[i], ops[i], at[i], id) ==> !Active(ss[i], id))
      ensures now <= at[i] <= t
    {
      assert WritesId(ms[i], acts[i], id);
      OddIffLapsed(ms, acts, i, id);
      WriteAfterStart(ms, acts, i, id);
      ServiceRuns.ClockMonotone(ms, acts, i, n);
    }
    assert OddOnlyAfresh(ss, ops, at, id, n);
    forall i, j | 0 <= i < j < n && Writes(ss[i], ops[i], id) && Writes(ss[j], ops[j], id) ensures at[i] <= at[j] {
      assert WritesId(ms[i], acts[i], id) && WritesId(ms[j], acts[j], id);
      WritesInOrder(ms, acts, i, j, id);
    }
    StoredSigners(ss, ops, at, id, now, n, t);
  }

  lemma InvParts(m: Machine)
    requires ServiceInv(m)
    ensures Keyed(m) && Readings(m)
  {
  }

  /** The same for every delivery a claim hands out. */
  lemma DeliverySigners(ms: seq<Machine>, acts: seq<Action>, n: nat, r: Uuid, t: int)
    requires IsServiceRun(ms, acts) && NoneDetached(ms, acts) && ms[0].tasks == map[] && n < |acts| && t >= Now(ms[n])
    requires Leases(ms[n].store, ActionOp(ms[n], acts[n]), r) && r in ms[n].store.rows
    requires var id := ms[n].store.rows[r].subscription;
      Active(ms[0].store, id) ==> Shaped(ms[0].store.subs[id], Now(ms[0]))
    ensures Claimed(ms[n].store, ActionOp(ms[n], acts[n]).q).Some?
    ensures var item := Claimed(ms[n].store, ActionOp(ms[n], acts[n]).q).value;
      var h := ServiceHistory(ms, acts, item.subId, n);
      && h != [] && h[|h| - 1].Wrote?
      && (Signers(item.sub, t) == Expected(h, t) <==>
          || !StillCarried(ms, acts, item.subId, n)
          || item.sub.oldSecret.None? || item.sub.oldSecretExpiresAt.None? || item.sub.oldSecretExpiresAt.value <= t)
  {
    hide ServiceInv, ItemsSound, Apply, Enabled, NoneDetached, StillCarried, Signers, Expected, ServiceHistory,
      ActionOp, Shaped, Now;
    ClaimTakesEarliest(ms[n].store, ActionOp(ms[n], acts[n]).q);
    ActiveSigners(ms, acts, ms[n].store.rows[r].subscription, n, t);
  }

  // ---- every store the service wrote can be started from ----

  /** The rotation columns of a row a call has read or is about to write. */
  predicate ShapedTask(t: Task, now: int)
  {
    match t
    case SubGranting(_, _, previous) => previous.Some? ==> Shaped(previous.value, now)
    case SubWriting(_, sub, _, _) => Shaped(sub, now)
    case EnvWriting(_, sub, _) => Shaped(sub, now)
    case _ => true
  }

  ghost predicate AllShaped(m: Machine)
  {
    && (forall id <- m.store.subs :: Shaped(m.store.subs[id], Now(m)))
    && (forall k <- m.tasks :: ShapedTask(m.tasks[k], Now(m)))
  }

  lemma ProofShaped(row: Option<Subscription>, sub: Subscription, at: int, now: int)
    requires (row.Some? ==> Shaped(row.value, now)) && ProofFrom(row, sub, at) && at <= now
    ensures Shaped(sub, now)
  {
  }

  lemma AfterShaped(m: Machine, t: Task, x: Input)
    requires AllShaped(m) && ShapedTask(t, Now(m)) && ReadInPast(m, t) && After(m, t, x).Some?
    ensures ShapedTask(After(m, t, x).value, Now(m))
  {
    hide Claimed, Interested, UpsertAllowed, OfKind, Shaped, Granted, EnvRow, ProofFrom;
    match t
    case SubGranting(req, now, previous) =>
      GrantedRotates(m, req, now, previous);
      ProofShaped(previous, Granted(m, req, now, previous), now, Now(m));
    case EnvReading(config, now) =>
      EnvRotates(m, config, now);
      ProofShaped(Lookup(m, EnvSub(m.owner)), EnvRow(m, config, now), now, Now(m));
    case _ =>
  }

  lemma GrantedRotates(m: Machine, req: Request, now: int, previous: Option<Subscription>)
    ensures ProofFrom(previous, Granted(m, req, now, previous), now)
  {
  }

  lemma EnvRotates(m: Machine, config: EnvConfig, now: int)
    ensures ProofFrom(Lookup(m, EnvSub(m.owner)), EnvRow(m, config, now), now)
  {
  }

  lemma StoreShaped(m: Machine, a: Action, id: SubId)
    requires AllShaped(m) && Keyed(m) && Enabled(m, a) && id in Next(m.store, ActionOp(m, a)).subs
    ensures Shaped(Next(m.store, ActionOp(m, a)).subs[id], Now(m))
  {
    hide Next, Keyed;
    SubscriptionStep(m.store, ActionOp(m, a), id);
    if WritesId(m, a, id) { WriterOf(m, a, id); }
  }

  lemma ShapedStep(m: Machine, a: Action)
    requires AllShaped(m) && Keyed(m) && Readings(m) && Enabled(m, a)
    ensures AllShaped(Apply(m, a))
  {
    hide Keyed, Next, After, OpOf, Allowed, ShapedTask, CacheAfter, DirtyAfter, ReadInPast;
    var m' := Apply(m, a);
    StoreStep(m, a);
    ClockStep(m, a);
    forall id | id in m'.store.subs ensures Shaped(m'.store.subs[id], Now(m')) { StoreShaped(m, a, id); }
    forall k | k in m'.tasks ensures ShapedTask(m'.tasks[k], Now(m')) {
      match a
      case Step(i, x) => if k == i { AfterShaped(m, m.tasks[i], x); }
      case Begin(i, t) => if k == i { FreshShaped(t, Now(m')); }
      case Drop(i) => if k == i { DroppedShaped(m.tasks[i], Now(m')); }
      case Advance(_) => LaterShaped(m.tasks[k], Now(m), Now(m'));
      case Restart(_, _) =>
    }
  }

  lemma FreshShaped(t: Task, now: int)
    requires Fresh(t)
    ensures ShapedTask(t, now)
  {
  }

  lemma DroppedShaped(t: Task, now: int)
    requires ShapedTask(t, now) && Dropped(t).Some?
    ensures ShapedTask(Dropped(t).value, now)
  {
  }

  lemma LaterShaped(t: Task, now: int, later: int)
    requires ShapedTask(t, now) && now <= later
    ensures ShapedTask(t, later)
  {
  }

  /** Rotation columns keep their shape in every run, so every store a run leaves behind can be found by
      the next one. */
  lemma {:induction false} ShapesKept(ms: seq<Machine>, acts: seq<Action>, i: nat)
    requires IsServiceRun(ms, acts) && AllShaped(ms[0]) && i < |ms|
    ensures AllShaped(ms[i])
  {
    hide ServiceInv, ItemsSound, Apply, Enabled, AllShaped;
    if i > 0 {
      ShapesKept(ms, acts, i - 1);
      RunServiceInv(ms, acts, i - 1);
      InvParts(ms[i - 1]);
      ShapedStep(ms[i - 1], acts[i - 1]);
    }
  }
}
