/** Subscribe sweeps, reads the previous row and writes the new one in three transactions: what lies between. */
module ServiceRotation {
  import opened Wrappers
  import opened Outbox
  import opened OutboxInvariants
  import opened Rotation
  import opened RotationRuns
  import opened Service
  import opened ServiceInvariants
  import opened ServiceRuns
  import opened ServiceCancel

  /** A subscribe of id past its sweep that has not written yet. */
  predicate Holds(owner: string, t: Task, id: SubId)
  {
    match t
    case SubReading(req, _) => UrlSub(owner, req.url) == id
    case SubGranting(req, _, _) => UrlSub(owner, req.url) == id
    case SubWriting(k, _, _, _) => k == id
    case _ => false
  }

  /** A sweep deletes an expired row and leaves any other alone. */
  function SweptBy(op: Op, row: Option<Subscription>): Option<Subscription>
  {
    if op.DoCleanup? && row.Some? && !Unexpired(row.value.expiresAt, op.now) then None else row
  }

  lemma UnwrittenRow(m: Machine, t: Task, x: Input, id: SubId)
    requires id !in Written(m, t)
    ensures Lookup(m.(store := Next(m.store, OpOf(m, t, x))), id) == SweptBy(OpOf(m, t, x), Lookup(m, id))
  {
  }

  predicate WritesNow(m: Machine, a: Action, k: TaskId)
  {
    a.Step? && a.task == k && k in m.tasks && m.tasks[k].SubWriting?
  }

  /** Until it writes, a subscribe past its sweep shuts out every other writer of its id: only an
      expired row can disappear, by a sweep. */
  lemma HeldRowStep(m: Machine, a: Action, k: TaskId, id: SubId)
    requires Keyed(m) && Exclusive(m) && AllAttached(m) && Enabled(m, a) && k in m.tasks
    requires Holds(m.owner, m.tasks[k], id)
    requires id.UrlSub? && !WritesNow(m, a, k) && !a.Restart?
    ensures Lookup(Apply(m, a), id) == SweptBy(ActionOp(m, a), Lookup(m, id))
  {
    hide Keyed, Exclusive, Allowed, After, Next, OpOf, CacheAfter, DirtyAfter, Holds, Written, KeyedTask, Lookup,
      Attached;
    if a.Step? {
      var t := m.tasks[a.task];
      if id in Written(m, t) {
        KeyedTasks(m, a.task);
        AttachedNotDetached(t);
        KeyedIds(m, t, id);
        HolderAlone(m, k, a.task, id);
        HolderWrites(m, t, id);
      } else {
        UnwrittenRow(m, t, a.x, id);
        SameLookup(m.(store := Apply(m, a).store), Apply(m, a), id);
      }
    } else {
      SameLookup(m, Apply(m, a), id);
    }
  }

  lemma SameLookup(m: Machine, m': Machine, id: SubId)
    requires m.store == m'.store
    ensures Lookup(m, id) == Lookup(m', id)
  {
  }

  lemma AttachedNotDetached(t: Task)
    requires Attached(t)
    ensures !Detached(t)
  {
  }

  lemma HolderAlone(m: Machine, k: TaskId, j: TaskId, id: SubId)
    requires Exclusive(m) && k in m.tasks && j in m.tasks && Holds(m.owner, m.tasks[k], id) && Attached(m.tasks[k])
    requires HoldsCache(m.tasks[j])
    ensures k == j
  {
    assert HoldsCache(m.tasks[k]);
  }

  lemma HolderWrites(m: Machine, t: Task, id: SubId)
    requires Holds(m.owner, t, id) && id in Written(m, t)
    ensures t.SubWriting?
  {
  }

  // ---- from the read to the write ----

  /** Action p is the read of call k, which has not written yet in state i. */
  ghost predicate ReadAt(ms: seq<Machine>, acts: seq<Action>, p: nat, i: nat, k: TaskId)
    requires |ms| == |acts| + 1
  {
    && p < i < |ms| && acts[p].Step? && acts[p].task == k && k in ms[p].tasks && ms[p].tasks[k].SubReading?
    && forall n | p < n <= i :: k in ms[n].tasks && (ms[n].tasks[k].SubGranting? || ms[n].tasks[k].SubWriting?)
  }

  /** What call t, past its read, still knows of the read: request, reading and row. */
  predicate Remembers(owner: string, t: Task, req: Request, now: int, row: Option<Subscription>)
  {
    match t
    case SubGranting(r, n, previous) => r == req && n == now && previous == row
    case SubWriting(id, sub, n, _) =>
      id == UrlSub(owner, req.url) && n == now && sub.secret == req.secret && ProofFrom(row, sub, now)
    case _ => false
  }

  /** A sweep at reading `until` or later between actions p and i. */
  ghost predicate SweptBetween(ms: seq<Machine>, acts: seq<Action>, p: nat, i: nat, until: int)
    requires |ms| == |acts| + 1 && i <= |acts|
  {
    exists n :: p < n < i && SweepsAt(ms[n], acts[n], until)
  }

  predicate SweepsAt(m: Machine, a: Action, until: int) { ActionOp(m, a).DoCleanup? && ActionOp(m, a).now >= until }

  /** The row that was read expired before a sweep that ran since. */
  ghost predicate Lapsed(ms: seq<Machine>, acts: seq<Action>, p: nat, i: nat, row: Option<Subscription>)
    requires |ms| == |acts| + 1 && i <= |acts|
  {
    row.Some? && row.value.expiresAt.Some? && SweptBetween(ms, acts, p, i, row.value.expiresAt.value)
  }

  lemma LapsedStep(ms: seq<Machine>, acts: seq<Action>, p: nat, i: nat, row: Option<Subscription>)
    requires |ms| == |acts| + 1 && p < i < |acts|
    ensures (if Lapsed(ms, acts, p, i + 1, row) then None else row) ==
      SweptBy(ActionOp(ms[i], acts[i]), if Lapsed(ms, acts, p, i, row) then None else row)
  {
    hide ActionOp;
    if row.Some? && row.value.expiresAt.Some? {
      var until := row.value.expiresAt.value;
      if SweptBetween(ms, acts, p, i + 1, until) && !SweptBetween(ms, acts, p, i, until) {
        assert SweepsAt(ms[i], acts[i], until);
      }
      if SweepsAt(ms[i], acts[i], until) { assert SweptBetween(ms, acts, p, i + 1, until); }
      if n :| p < n < i && SweepsAt(ms[n], acts[n], until) { assert SweptBetween(ms, acts, p, i + 1, until); }
    }
  }

  /** From the read to the write the store holds the row that was read until it lapses, then none. */
  lemma {:induction false} RowSinceRead(ms: seq<Machine>, acts: seq<Action>, p: nat, i: nat, k: TaskId)
    requires IsServiceRun(ms, acts) && NoneDetached(ms, acts) && ReadAt(ms, acts, p, i, k)
    ensures var id := UrlSub(ms[0].owner, ms[p].tasks[k].req.url);
      var row := Lookup(ms[p], id);
      && Remembers(ms[0].owner, ms[i].tasks[k], ms[p].tasks[k].req, ms[p].tasks[k].now, row)
      && Lookup(ms[i], id) == if Lapsed(ms, acts, p, i, row) then None else row
    decreases i
  {
    hide Keyed, Exclusive, Readings, Synced, Inv, ItemsSound, Apply, Enabled, Lapsed, Lookup, SweptBy, ActionOp,
      Remembers, AllAttached, NoneDetached;
    var id := UrlSub(ms[0].owner, ms[p].tasks[k].req.url);
    var row := Lookup(ms[p], id);
    RunServiceInv(ms, acts, i - 1);
    RunAttached(ms, acts, i - 1);
    assert Enabled(ms[i - 1], acts[i - 1]) && ms[i] == Apply(ms[i - 1], acts[i - 1]);
    if i == p + 1 {
      ReadStep(ms[p], acts[p], k);
      NotLapsedYet(ms, acts, p, row);
    } else {
      RowSinceRead(ms, acts, p, i - 1, k);
      RememberedHolds(ms[0].owner, ms[i - 1].tasks[k], ms[p].tasks[k].req, ms[p].tasks[k].now, row);
      CallGoesOn(ms[i - 1], acts[i - 1], k, ms[p].tasks[k].req, ms[p].tasks[k].now, row);
      HeldRowStep(ms[i - 1], acts[i - 1], k, id);
      LapsedStep(ms, acts, p, i - 1, row);
    }
  }

  lemma NotLapsedYet(ms: seq<Machine>, acts: seq<Action>, p: nat, row: Option<Subscription>)
    requires |ms| == |acts| + 1 && p < |acts|
    ensures !Lapsed(ms, acts, p, p + 1, row)
  {
  }

  lemma ReadStep(m: Machine, a: Action, k: TaskId)
    requires Enabled(m, a) && a.Step? && a.task == k && m.tasks[k].SubReading?
    ensures var id := UrlSub(m.owner, m.tasks[k].req.url);
      && k in Apply(m, a).tasks && Lookup(Apply(m, a), id) == Lookup(m, id)
      && Remembers(m.owner, Apply(m, a).tasks[k], m.tasks[k].req, m.tasks[k].now, Lookup(m, id))
  {
  }

  lemma RememberedHolds(owner: string, t: Task, req: Request, now: int, row: Option<Subscription>)
    requires Remembers(owner, t, req, now, row)
    ensures Holds(owner, t, UrlSub(owner, req.url))
  {
  }

  lemma CallGoesOn(m: Machine, a: Action, k: TaskId, req: Request, now: int, row: Option<Subscription>)
    requires Enabled(m, a) && k in m.tasks && Remembers(m.owner, m.tasks[k], req, now, row)
    requires k in Apply(m, a).tasks && (Apply(m, a).tasks[k].SubGranting? || Apply(m, a).tasks[k].SubWriting?)
    ensures !WritesNow(m, a, k) && !a.Restart? && Remembers(m.owner, Apply(m, a).tasks[k], req, now, row)
  {
    hide Allowed, OpOf, Next, CacheAfter, DirtyAfter, RotationProof;
  }

  /** Every queued write was read by an earlier action of the same call. */
  lemma {:induction false} ReadPoint(ms: seq<Machine>, acts: seq<Action>, i: nat, k: TaskId) returns (p: nat)
    requires IsServiceRun(ms, acts) && ms[0].tasks == map[] && i < |ms| && k in ms[i].tasks
    requires ms[i].tasks[k].SubGranting? || ms[i].tasks[k].SubWriting?
    ensures ReadAt(ms, acts, p, i, k)
  {
    hide ServiceInv, ItemsSound, Apply, Enabled;
    var m := ms[i - 1];
    if k in m.tasks && (m.tasks[k].SubGranting? || m.tasks[k].SubWriting?) {
      p := ReadPoint(ms, acts, i - 1, k);
    } else {
      p := i - 1;
      CameFromRead(m, acts[p], k);
    }
  }

  lemma CameFromRead(m: Machine, a: Action, k: TaskId)
    requires Enabled(m, a) && k in Apply(m, a).tasks
    requires Apply(m, a).tasks[k].SubGranting? || Apply(m, a).tasks[k].SubWriting?
    requires !(k in m.tasks && (m.tasks[k].SubGranting? || m.tasks[k].SubWriting?))
    ensures a.Step? && a.task == k && k in m.tasks && m.tasks[k].SubReading?
  {
    hide Allowed, OpOf, Next, CacheAfter, DirtyAfter;
  }

  /** The new row carries an old secret or its deadline over from the row that was read. */
  predicate CarriesOver(row: Option<Subscription>, secret: Bytes, now: int)
  {
    && row.Some? && row.value.active
    && (row.value.secret != secret || (row.value.oldSecretExpiresAt.Some? && row.value.oldSecretExpiresAt.value > now))
  }

  /** In every interleaving in which no dropped request leaves a store call running: the rotation a
      subscribe is about to write was computed from the row it read, and it is the rotation of the row
      the store holds at that moment if and only if it carries nothing over or the row it read has not
      been swept since, by a sweep at or past that row's expiry. */
  lemma SubscribeRotatesStoredRow(ms: seq<Machine>, acts: seq<Action>, i: nat, k: TaskId) returns (p: nat)
    requires IsServiceRun(ms, acts) && ms[0].tasks == map[] && NoneDetached(ms, acts)
    requires i <= |acts| && k in ms[i].tasks && ms[i].tasks[k].SubWriting?
    ensures ReadAt(ms, acts, p, i, k)
    ensures var t := ms[i].tasks[k];
      var row := Lookup(ms[p], t.id);
      && ProofFrom(row, t.sub, t.now)
      && (ProofFrom(Lookup(ms[i], t.id), t.sub, t.now) <==>
        !CarriesOver(row, t.sub.secret, t.now) || !Lapsed(ms, acts, p, i, row))
  {
    hide ServiceInv, ItemsSound, Apply, Enabled, NoneDetached, Lapsed, Lookup;
    p := ReadPoint(ms, acts, i, k);
    RowSinceRead(ms, acts, p, i, k);
  }

  // ---- an id that had expired starts afresh ----

  /** Action p is the sweep of call k for id, which has not written yet in state i. */
  ghost predicate SweptAt(ms: seq<Machine>, acts: seq<Action>, p: nat, i: nat, k: TaskId, id: SubId)
    requires |ms| == |acts| + 1
  {
    && p < i < |ms| && acts[p].Step? && acts[p].task == k && k in ms[p].tasks && ms[p].tasks[k].SubSweeping?
    && id == UrlSub(ms[p].owner, ms[p].tasks[k].req.url)
    && forall n | p < n <= i :: k in ms[n].tasks && Holds(ms[n].owner, ms[n].tasks[k], id)
  }

  predicate EmptyOutbox(s: Store, id: SubId) { forall r <- s.rows :: s.rows[r].subscription != id }

  lemma HolderHasNotWritten(m: Machine, a: Action, k: TaskId, id: SubId)
    requires Enabled(m, a) && k in Apply(m, a).tasks && Holds(m.owner, Apply(m, a).tasks[k], id)
    ensures !WritesNow(m, a, k) && !a.Restart?
  {
    hide Allowed, OpOf, Next, CacheAfter, DirtyAfter;
  }

  lemma SweepEmpties(m: Machine, a: Action, id: SubId)
    requires Enabled(m, a) && a.Step? && m.tasks[a.task].SubSweeping?
    requires Lookup(m, id).None? || !Unexpired(Lookup(m, id).value.expiresAt, m.tasks[a.task].now)
    ensures Lookup(Apply(m, a), id).None?
  {
  }

  lemma {:induction false} AbsentSinceSweep(ms: seq<Machine>, acts: seq<Action>, p: nat, i: nat, k: TaskId, id: SubId)
    requires IsServiceRun(ms, acts) && NoneDetached(ms, acts) && SweptAt(ms, acts, p, i, k, id)
    requires Lookup(ms[p], id).None? || !Unexpired(Lookup(ms[p], id).value.expiresAt, ms[p].tasks[k].now)
    ensures Lookup(ms[i], id).None?
    decreases i
  {
    hide Keyed, Exclusive, Readings, Synced, Inv, ItemsSound, Apply, Enabled, Lookup, ActionOp, AllAttached,
      NoneDetached, Holds;
    assert Enabled(ms[i - 1], acts[i - 1]) && ms[i] == Apply(ms[i - 1], acts[i - 1]);
    if i == p + 1 {
      SweepEmpties(ms[p], acts[p], id);
    } else {
      AbsentSinceSweep(ms, acts, p, i - 1, k, id);
      RunServiceInv(ms, acts, i - 1);
      RunServiceInv(ms, acts, i);
      RunAttached(ms, acts, i - 1);
      HolderHasNotWritten(ms[i - 1], acts[i - 1], k, id);
      HeldRowStep(ms[i - 1], acts[i - 1], k, id);
    }
  }

  /** A subscribe of an id that had expired at its clock reading, or was not there, starts with an
      empty outbox, whatever other tasks did between its sweep and its write. */
  lemma ResubscribeAfterExpiryStartsEmpty(ms: seq<Machine>, acts: seq<Action>, p: nat, i: nat, k: TaskId, id: SubId)
    requires IsServiceRun(ms, acts) && NoneDetached(ms, acts) && SweptAt(ms, acts, p, i, k, id)
    requires Lookup(ms[p], id).None? || !Unexpired(Lookup(ms[p], id).value.expiresAt, ms[p].tasks[k].now)
    requires i < |acts| && WritesNow(ms[i], acts[i], k)
    ensures Lookup(ms[i + 1], id) == Some(ms[i].tasks[k].sub)
    ensures EmptyOutbox(ms[i + 1].store, id)
  {
    hide Keyed, Exclusive, Readings, Synced, ItemsSound, Apply, NoneDetached, Unique, LeasesSound, AllDrawn;
    AbsentSinceSweep(ms, acts, p, i, k, id);
    RunServiceInv(ms, acts, i);
    StoreStep(ms[i], acts[i]);
  }
}
