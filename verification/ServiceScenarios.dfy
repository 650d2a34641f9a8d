/** Two runs of the service, step by step, in which a guarantee fails because of what comes between two transactions. */
module ServiceScenarios {
  import opened Wrappers
  import opened Outbox
  import opened OutboxInvariants
  import opened DeliveryPolicy
  import opened Rotation
  import opened Service
  import opened ServiceInvariants
  import opened ServiceRuns
  import opened ServiceCancel
  import opened ServiceRotation
  import opened ServiceSigners

  const ID := UrlSub("o", "u")
  const MCP: Option<SourceKind> := Some(McpSubscription)
  const INPUT := Input(2, Err(TransportFailed), map[])

  function Sub(secret: Bytes, oldSecret: Option<Bytes>, until: Option<int>, expiresAt: Option<int>): Subscription
  {
    Subscription(McpSubscription, WILDCARD, "o", "f", "o", [], secret, oldSecret, until, NO_ARGUMENTS, expiresAt, true)
  }

  function Scene(clockMs: int, store: Store, sub: Subscription, tasks: map<TaskId, Task>, dirty: set<SubId>): Machine
  {
    Machine("o", "f", clockMs, store, map[ID := EntryOf(sub)], tasks, dirty)
  }

  lemma OpensAs(store: Store, sub: Subscription)
    requires store.subs == map[ID := sub] && Live(sub, "o", 9) && sub.fingerprint == "f"
    ensures Open(store, "o", "f", 9000) == Scene(9000, store, sub, map[], {})
  {
    assert RevokeExcept(store, "o", "f").subs == store.subs;
  }

  lemma OpenRun(store: Store)
    requires Inv(store) && forall id <- store.subs :: KeyedSub(id, store.subs[id])
    ensures IsServiceRun([Open(store, "o", "f", 9000)], [])
  {
    hide Inv, ServiceInv;
    OpenEstablishes(store, "o", "f", 9000);
    assert Open(store, "o", "f", 9000).tasks == map[];
  }

  ghost predicate Goes(m: Machine, a: Action, next: Machine) { Enabled(m, a) && Apply(m, a) == next }

  /** One more step of a run. */
  lemma Extend(ms: seq<Machine>, acts: seq<Action>, a: Action, next: Machine)
    requires IsServiceRun(ms, acts) && Goes(ms[|acts|], a, next)
    ensures IsServiceRun(ms + [next], acts + [a])
  {
    hide ServiceInv, ItemsSound, Enabled, Apply;
    var ms', acts' := ms + [next], acts + [a];
    forall i | 0 <= i < |acts'| ensures Enabled(ms'[i], acts'[i]) && ms'[i + 1] == Apply(ms'[i], acts'[i]) {
      if i < |acts| { assert ms'[i] == ms[i] && ms'[i + 1] == ms[i + 1] && acts'[i] == acts[i]; }
    }
  }

  // ---- the steps of a tick and of a subscribe, on any machine ----

  /** A step that leaves the store and the cache alone. */
  lemma Moves(m: Machine, i: TaskId, u: Task)
    requires i in m.tasks && Allowed(m, m.tasks[i], INPUT) && After(m, m.tasks[i], INPUT) == Some(u)
    requires Next(m.store, OpOf(m, m.tasks[i], INPUT)) == m.store
    requires CacheAfter(m, m.tasks[i]) == m.cache && Written(m, m.tasks[i]) == {}
    ensures Goes(m, Step(i, INPUT), m.(tasks := m.tasks[i := u]))
  {
    hide Allowed, After, Next, OpOf, CacheAfter, Written;
    assert DirtyAfter(m, m.tasks[i]) == m.dirty;
  }

  lemma Settled(t: Task)
    requires !t.SubWritten? && !t.EnvWritten? && !t.UnsubDone? && !t.EnvStopped? && !t.RevokeDone?
    requires !t.SubWriting? && !t.EnvWriting? && !t.UnsubCancelling? && !t.EnvStopping? && !t.RevokeCancelling?
    ensures forall m: Machine :: CacheAfter(m, t) == m.cache && Written(m, t) == {}
  {
  }

  lemma TickStarts(m: Machine, i: TaskId)
    requires i in m.tasks && m.tasks[i].TickStart? && NoWriter(m)
    ensures Goes(m, Step(i, INPUT), m.(tasks := m.tasks[i := TickSweeping(m.tasks[i].lane, Now(m))]))
  {
    Settled(m.tasks[i]);
    hide CacheAfter, Written, NoWriter;
    Moves(m, i, TickSweeping(m.tasks[i].lane, Now(m)));
  }

  lemma TickSweptNothing(m: Machine, i: TaskId)
    requires i in m.tasks && m.tasks[i].TickSweeping? && Cleanup(m.store, m.tasks[i].now) == m.store
    ensures Goes(m, Step(i, INPUT), m.(tasks := m.tasks[i := TickReady(m.tasks[i].lane)]))
  {
    Settled(m.tasks[i]);
    hide CacheAfter, Written, Cleanup;
    Moves(m, i, TickReady(m.tasks[i].lane));
  }

  lemma TickReadsClock(m: Machine, i: TaskId)
    requires i in m.tasks && m.tasks[i].TickReady?
    ensures Goes(m, Step(i, INPUT), m.(tasks := m.tasks[i := TickClaiming(m.tasks[i].lane, Now(m))]))
  {
    Settled(m.tasks[i]);
    hide CacheAfter, Written;
    Moves(m, i, TickClaiming(m.tasks[i].lane, Now(m)));
  }

  lemma SubscribeEnters(m: Machine, i: TaskId)
    requires i in m.tasks && m.tasks[i].SubStart? && NoWriter(m)
    ensures Goes(m, Step(i, INPUT), m.(tasks := m.tasks[i := SubVerifying(m.tasks[i].req)]))
  {
    Settled(m.tasks[i]);
    hide CacheAfter, Written, NoWriter;
    Moves(m, i, SubVerifying(m.tasks[i].req));
  }

  lemma SubscribeLocks(m: Machine, i: TaskId)
    requires i in m.tasks && m.tasks[i].SubVerifying? && CacheFree(m)
    ensures Goes(m, Step(i, INPUT), m.(tasks := m.tasks[i := SubSweeping(m.tasks[i].req, Now(m))]))
  {
    Settled(m.tasks[i]);
    hide CacheAfter, Written, CacheFree;
    Moves(m, i, SubSweeping(m.tasks[i].req, Now(m)));
  }

  lemma SubscribeSweptNothing(m: Machine, i: TaskId)
    requires i in m.tasks && m.tasks[i].SubSweeping? && Cleanup(m.store, m.tasks[i].now) == m.store
    ensures Goes(m, Step(i, INPUT), m.(tasks := m.tasks[i := SubReading(m.tasks[i].req, m.tasks[i].now)]))
  {
    Settled(m.tasks[i]);
    hide CacheAfter, Written, Cleanup;
    Moves(m, i, SubReading(m.tasks[i].req, m.tasks[i].now));
  }

  lemma SubscribeReads(m: Machine, i: TaskId)
    requires i in m.tasks && m.tasks[i].SubReading?
    ensures var t := m.tasks[i];
      var row := Lookup(m, UrlSub(m.owner, t.req.url));
      Goes(m, Step(i, INPUT), m.(tasks := m.tasks[i := SubGranting(t.req, t.now, row)]))
  {
    Settled(m.tasks[i]);
    hide CacheAfter, Written, Lookup;
    Moves(m, i, SubGranting(m.tasks[i].req, m.tasks[i].now, Lookup(m, UrlSub(m.owner, m.tasks[i].req.url))));
  }

  lemma SubscribeGrants(m: Machine, i: TaskId)
    requires i in m.tasks && m.tasks[i].SubGranting?
    ensures var t := m.tasks[i];
      var write := SubWriting(UrlSub(m.owner, t.req.url), Granted(m, t.req, t.now, t.previous), t.now, true);
      Goes(m, Step(i, INPUT), m.(tasks := m.tasks[i := write]))
  {
    Settled(m.tasks[i]);
    hide CacheAfter, Written, Granted;
    var t := m.tasks[i];
    Moves(m, i, SubWriting(UrlSub(m.owner, t.req.url), Granted(m, t.req, t.now, t.previous), t.now, true));
  }

  lemma UnsubscribeLocks(m: Machine, i: TaskId)
    requires i in m.tasks && m.tasks[i].UnsubStart? && CacheFree(m)
    ensures Goes(m, Step(i, INPUT), m.(tasks := m.tasks[i := UnsubLocked(m.tasks[i].id, true)]))
  {
    Settled(m.tasks[i]);
    hide CacheAfter, Written, CacheFree;
    Moves(m, i, UnsubLocked(m.tasks[i].id, true));
  }

  lemma UnsubscribeReadsClock(m: Machine, i: TaskId)
    requires i in m.tasks && m.tasks[i].UnsubLocked?
    ensures var t := m.tasks[i];
      Goes(m, Step(i, INPUT), m.(tasks := m.tasks[i := UnsubCancelling(t.id, Now(m), t.attached)]))
  {
    Settled(m.tasks[i]);
    hide CacheAfter, Written;
    Moves(m, i, UnsubCancelling(m.tasks[i].id, Now(m), m.tasks[i].attached));
  }

  // ---- a dropped subscribe, an unsubscribe and a stale claim ----

  /** One pending row of one subscription. */
  const SUB := Sub([], None, None, None)
  const ROW := Row(0, ID, [], Pending, 0, None, None, 0, 100, 0, None, None, None)
  const ONE := Store(map[ID := SUB], map[0 := Occurrence("e", "o", "k", 100)], map[1 := ROW], {0, 1})
  const AGAIN := Request("u", [], [], None)

  lemma OneRowInv()
    ensures Inv(ONE)
  {
  }

  lemma OneRowNext(q: Query)
    requires q.owner == "o" && q.fingerprint == "f" && q.now == 9 && q.kind == MCP
    ensures IsNext(ONE, q, 1)
  {
    assert forall r | r in ONE.rows :: r == 1;
    assert Claimable(ONE, q, 1);
  }

  lemma NothingToSweep()
    ensures Cleanup(ONE, 9) == ONE
  {
    assert Cleanup(ONE, 9).subs == ONE.subs && Cleanup(ONE, 9).occs == ONE.occs && Cleanup(ONE, 9).rows == ONE.rows;
  }

  /** A claim that has read its clock at 9 and waits for the store. */
  const CLAIM := TickClaiming(MCP, 9)

  function Early(tasks: map<TaskId, Task>): Machine { Scene(9000, ONE, SUB, tasks, {}) }

  function WithClaim(task: Task): Machine { Early(map[0 := CLAIM, 1 := task]) }

  function Late(tasks: map<TaskId, Task>): Machine { Scene(10000, ONE, SUB, tasks, {}) }

  lemma ClaimGoes()
    ensures Goes(Early(map[]), Begin(0, TickStart(MCP)), Early(map[0 := TickStart(MCP)]))
    ensures Goes(Early(map[0 := TickStart(MCP)]), Step(0, INPUT), Early(map[0 := TickSweeping(MCP, 9)]))
    ensures Goes(Early(map[0 := TickSweeping(MCP, 9)]), Step(0, INPUT), Early(map[0 := TickReady(MCP)]))
    ensures Goes(Early(map[0 := TickReady(MCP)]), Step(0, INPUT), Early(map[0 := CLAIM]))
  {
    NothingToSweep();
    hide Allowed, After, Next, Cleanup, OpOf, CacheAfter, DirtyAfter;
    TickStarts(Early(map[0 := TickStart(MCP)]), 0);
    TickSweptNothing(Early(map[0 := TickSweeping(MCP, 9)]), 0);
    TickReadsClock(Early(map[0 := TickReady(MCP)]), 0);
  }

  lemma SubscribeGoes()
    ensures Goes(Early(map[0 := CLAIM]), Begin(1, SubStart(AGAIN)), WithClaim(SubStart(AGAIN)))
    ensures Goes(WithClaim(SubStart(AGAIN)), Step(1, INPUT), WithClaim(SubVerifying(AGAIN)))
  {
    hide Allowed, After, Next, OpOf, CacheAfter, DirtyAfter;
    SubscribeEnters(WithClaim(SubStart(AGAIN)), 1);
  }

  lemma SubscribeSweeps()
    ensures Goes(WithClaim(SubVerifying(AGAIN)), Step(1, INPUT), WithClaim(SubSweeping(AGAIN, 9)))
    ensures Goes(WithClaim(SubSweeping(AGAIN, 9)), Step(1, INPUT), WithClaim(SubReading(AGAIN, 9)))
  {
    NothingToSweep();
    hide Allowed, After, Next, Cleanup, OpOf, CacheAfter, DirtyAfter;
    SubscribeLocks(WithClaim(SubVerifying(AGAIN)), 1);
    SubscribeSweptNothing(WithClaim(SubSweeping(AGAIN, 9)), 1);
  }

  lemma GrantGoes()
    ensures Goes(WithClaim(SubReading(AGAIN, 9)), Step(1, INPUT), WithClaim(SubGranting(AGAIN, 9, Some(SUB))))
    ensures Goes(WithClaim(SubGranting(AGAIN, 9, Some(SUB))), Step(1, INPUT), WithClaim(SubWriting(ID, SUB, 9, true)))
  {
    hide Allowed, After, Next, OpOf, CacheAfter, DirtyAfter;
    SubscribeReads(WithClaim(SubReading(AGAIN, 9)), 1);
    SubscribeGrants(WithClaim(SubGranting(AGAIN, 9, Some(SUB))), 1);
  }

  /** The request is dropped with its write queued. */
  const WRITE := SubWriting(ID, SUB, 9, false)

  lemma SubscribeIsDropped()
    ensures Goes(WithClaim(SubWriting(ID, SUB, 9, true)), Drop(1), WithClaim(WRITE))
    ensures Goes(WithClaim(WRITE), Advance(1000), Late(map[0 := CLAIM, 1 := WRITE]))
    ensures Goes(Late(map[0 := CLAIM, 1 := WRITE]), Begin(2, UnsubStart(ID)), WithWrite(UnsubStart(ID)))
  {
  }

  function WithWrite(task: Task): Machine { Late(map[0 := CLAIM, 1 := WRITE, 2 := task]) }

  const CANCEL := UnsubCancelling(ID, 10, true)

  lemma UnsubscribeGoes()
    ensures Goes(WithWrite(UnsubStart(ID)), Step(2, INPUT), WithWrite(UnsubLocked(ID, true)))
    ensures Goes(WithWrite(UnsubLocked(ID, true)), Step(2, INPUT), WithWrite(CANCEL))
  {
    hide Allowed, After, Next, OpOf, CacheAfter, DirtyAfter;
    UnsubscribeLocks(WithWrite(UnsubStart(ID)), 2);
    UnsubscribeReadsClock(WithWrite(UnsubLocked(ID, true)), 2);
  }

  lemma CommitCancelsRow()
    ensures Enabled(WithWrite(CANCEL), Step(2, INPUT)) && CancelsRow(WithWrite(CANCEL), Step(2, INPUT), 1, 10)
  {
  }

  /** The run so far started from `open` and dropped only its action number 10. */
  ghost predicate SoFar(ms: seq<Machine>, acts: seq<Action>, n: nat, m: Machine)
  {
    && |acts| == n && |ms| == n + 1 && IsServiceRun(ms, acts) && ms[0] == Open(ONE, "o", "f", 9000) && ms[n] == m
    && forall i | 0 <= i < n :: acts[i].Drop? <==> i == 10
  }

  lemma UpToClaim() returns (ms: seq<Machine>, acts: seq<Action>)
    ensures SoFar(ms, acts, 4, Early(map[0 := CLAIM]))
  {
    hide IsServiceRun, Goes, Early, WithClaim, Open, Inv;
    OneRowInv();
    OpenRun(ONE);
    OpensEarly();
    ms, acts := [Early(map[])], [];
    ClaimGoes();
    ms, acts := Then(ms, acts, Begin(0, TickStart(MCP)), Early(map[0 := TickStart(MCP)]));
    ms, acts := Then(ms, acts, Step(0, INPUT), Early(map[0 := TickSweeping(MCP, 9)]));
    ms, acts := Then(ms, acts, Step(0, INPUT), Early(map[0 := TickReady(MCP)]));
    ms, acts := Then(ms, acts, Step(0, INPUT), Early(map[0 := CLAIM]));
  }

  lemma UpToWrite() returns (ms: seq<Machine>, acts: seq<Action>)
    ensures SoFar(ms, acts, 10, WithClaim(SubWriting(ID, SUB, 9, true)))
  {
    hide IsServiceRun, Goes, Early, WithClaim, Open;
    ms, acts := UpToClaim();
    SubscribeGoes();
    ms, acts := Then(ms, acts, Begin(1, SubStart(AGAIN)), WithClaim(SubStart(AGAIN)));
    ms, acts := Then(ms, acts, Step(1, INPUT), WithClaim(SubVerifying(AGAIN)));
    SubscribeSweeps();
    ms, acts := Then(ms, acts, Step(1, INPUT), WithClaim(SubSweeping(AGAIN, 9)));
    ms, acts := Then(ms, acts, Step(1, INPUT), WithClaim(SubReading(AGAIN, 9)));
    GrantGoes();
    ms, acts := Then(ms, acts, Step(1, INPUT), WithClaim(SubGranting(AGAIN, 9, Some(SUB))));
    ms, acts := Then(ms, acts, Step(1, INPUT), WithClaim(SubWriting(ID, SUB, 9, true)));
  }

  lemma UpToCommit() returns (ms: seq<Machine>, acts: seq<Action>)
    ensures SoFar(ms, acts, 15, WithWrite(CANCEL))
  {
    hide IsServiceRun, Goes, Early, WithClaim, Late, WithWrite, Open;
    ms, acts := UpToWrite();
    SubscribeIsDropped();
    ms, acts := Then(ms, acts, Drop(1), WithClaim(WRITE));
    ms, acts := Then(ms, acts, Advance(1000), Late(map[0 := CLAIM, 1 := WRITE]));
    ms, acts := Then(ms, acts, Begin(2, UnsubStart(ID)), WithWrite(UnsubStart(ID)));
    UnsubscribeGoes();
    ms, acts := Then(ms, acts, Step(2, INPUT), WithWrite(UnsubLocked(ID, true)));
    ms, acts := Then(ms, acts, Step(2, INPUT), WithWrite(CANCEL));
  }

  /** A subscribe is dropped with its write queued, the id is unsubscribed, the write lands, and a
      claim that had read its clock before the unsubscribe did takes the cancelled row. */
  lemma StaleClaimAfterDroppedSubscribe() returns (ms: seq<Machine>, acts: seq<Action>)
    ensures |acts| == 18 && IsServiceRun(ms, acts) && ms[0] == Open(ONE, "o", "f", 9000)
    ensures forall i | 0 <= i < 18 :: acts[i].Drop? <==> i == 10
    ensures CancelsRow(ms[15], acts[15], 1, 10) && Leases(ms[17].store, ActionOp(ms[17], acts[17]), 1)
  {
    hide IsServiceRun, Goes, WithWrite, Open, CancelsRow, Leases, ActionOp, ServiceInv;
    ms, acts := UpToCommit();
    RunServiceInv(ms, acts, 15);
    var cancelled, written, claimed := LeaseAfterAll();
    ms, acts := Then(ms, acts, Step(2, INPUT), cancelled);
    ms, acts := Then(ms, acts, Step(1, INPUT), written);
    ms, acts := Then(ms, acts, Step(0, INPUT), claimed);
  }

  lemma OpensEarly()
    ensures Open(ONE, "o", "f", 9000) == Early(map[])
  {
    OpensAs(ONE, SUB);
  }

  lemma Then(ms: seq<Machine>, acts: seq<Action>, a: Action, next: Machine)
    returns (ms': seq<Machine>, acts': seq<Action>)
    requires |ms| == |acts| + 1 && IsServiceRun(ms, acts) && Goes(ms[|acts|], a, next)
    ensures ms' == ms + [next] && acts' == acts + [a] && IsServiceRun(ms', acts')
  {
    hide ServiceInv, ItemsSound, Enabled, Apply;
    ms', acts' := ms + [next], acts + [a];
    Extend(ms, acts, a, next);
  }

  /** Cancel, write and claim. */
  lemma LeaseAfterAll() returns (cancelled: Machine, written: Machine, claimed: Machine)
    requires ServiceInv(WithWrite(CANCEL))
    ensures Goes(WithWrite(CANCEL), Step(2, INPUT), cancelled) && Goes(cancelled, Step(1, INPUT), written)
    ensures Goes(written, Step(0, INPUT), claimed)
    ensures CancelsRow(WithWrite(CANCEL), Step(2, INPUT), 1, 10)
    ensures Leases(written.store, ActionOp(written, Step(0, INPUT)), 1)
  {
    hide ServiceInv, Apply, Enabled, CancelsRow, Leases, ActionOp, IsNext;
    CommitCancelsRow();
    OneRowNext(LaneQuery(WithWrite(CANCEL), MCP, 9, 2));
    QueuedWriteRevivesRowIffClockOlder(WithWrite(CANCEL), Step(2, INPUT), 1, 0, INPUT, INPUT, 1, 10);
    cancelled := Apply(WithWrite(CANCEL), Step(2, INPUT));
    written := Apply(cancelled, Step(1, INPUT));
    claimed := Apply(written, Step(0, INPUT));
  }

  // ---- a row swept between the read and the write ----

  const PREVIOUS := Sub([1], None, None, Some(10))
  const EXPIRING := Store(map[ID := PREVIOUS], map[], map[], {})
  const SWEPT := EMPTY
  const CHANGED := Request("u", [], [2], None)
  const ROTATED := Sub([2], Some([1]), Some(609), None)

  function Before(task: Task): Machine { Scene(9000, EXPIRING, PREVIOUS, map[0 := task], {}) }

  /** The change of secret is about to be written, with the old secret beside it. */
  const CHANGE := SubWriting(ID, ROTATED, 9, true)

  function Waiting(): Machine { Scene(10000, EXPIRING, PREVIOUS, map[0 := CHANGE], {}) }

  function Meanwhile(store: Store, task: Task): Machine
  {
    Scene(10000, store, PREVIOUS, map[0 := CHANGE, 1 := task], {})
  }

  lemma SweepsOfExpiring()
    ensures Cleanup(EXPIRING, 9) == EXPIRING && Cleanup(EXPIRING, 10) == SWEPT
  {
    var kept, swept := Cleanup(EXPIRING, 9), Cleanup(EXPIRING, 10);
    assert kept.subs == EXPIRING.subs && kept.occs == map[] && kept.rows == map[];
    assert swept.subs == map[] && swept.occs == map[] && swept.rows == map[];
  }

  lemma ChangeGoes()
    ensures Goes(Scene(9000, EXPIRING, PREVIOUS, map[], {}), Begin(0, SubStart(CHANGED)), Before(SubStart(CHANGED)))
    ensures Goes(Before(SubStart(CHANGED)), Step(0, INPUT), Before(SubVerifying(CHANGED)))
    ensures Goes(Before(SubVerifying(CHANGED)), Step(0, INPUT), Before(SubSweeping(CHANGED, 9)))
    ensures Goes(Before(SubSweeping(CHANGED, 9)), Step(0, INPUT), Before(SubReading(CHANGED, 9)))
  {
    SweepsOfExpiring();
    hide Allowed, After, Next, Cleanup, OpOf, CacheAfter, DirtyAfter;
    SubscribeEnters(Before(SubStart(CHANGED)), 0);
    SubscribeLocks(Before(SubVerifying(CHANGED)), 0);
    SubscribeSweptNothing(Before(SubSweeping(CHANGED, 9)), 0);
  }

  lemma ChangeReads()
    ensures Goes(Before(SubReading(CHANGED, 9)), Step(0, INPUT), Before(SubGranting(CHANGED, 9, Some(PREVIOUS))))
    ensures Goes(Before(SubGranting(CHANGED, 9, Some(PREVIOUS))), Step(0, INPUT), Before(CHANGE))
  {
    hide Allowed, After, Next, OpOf, CacheAfter, DirtyAfter;
    SubscribeReads(Before(SubReading(CHANGED, 9)), 0);
    SubscribeGrants(Before(SubGranting(CHANGED, 9, Some(PREVIOUS))), 0);
  }

  lemma TickBegins()
    ensures Goes(Before(CHANGE), Advance(1000), Waiting())
    ensures Goes(Waiting(), Begin(1, TickStart(MCP)), Meanwhile(EXPIRING, TickStart(MCP)))
    ensures Goes(Meanwhile(EXPIRING, TickStart(MCP)), Step(1, INPUT), Meanwhile(EXPIRING, TickSweeping(MCP, 10)))
  {
    hide Allowed, After, Next, OpOf, CacheAfter, DirtyAfter;
    TickStarts(Meanwhile(EXPIRING, TickStart(MCP)), 1);
  }

  lemma TickSweeps()
    ensures Goes(Meanwhile(EXPIRING, TickSweeping(MCP, 10)), Step(1, INPUT), Meanwhile(SWEPT, TickReady(MCP)))
    ensures SweepsAt(Meanwhile(EXPIRING, TickSweeping(MCP, 10)), Step(1, INPUT), 10)
  {
    SweepsOfExpiring();
    hide Cleanup;
  }

  lemma WriteLands() returns (written: Machine)
    ensures Goes(Meanwhile(SWEPT, TickReady(MCP)), Step(0, INPUT), written)
    ensures ID in written.store.subs && written.store.subs[ID] == ROTATED
  {
    written := Apply(Meanwhile(SWEPT, TickReady(MCP)), Step(0, INPUT));
  }

  lemma ReadAndGranted() returns (ms: seq<Machine>, acts: seq<Action>)
    ensures |acts| == 6 && |ms| == 7 && IsServiceRun(ms, acts) && ms[0] == Open(EXPIRING, "o", "f", 9000)
    ensures ms[4] == Before(SubReading(CHANGED, 9)) && acts[4] == Step(0, INPUT)
    ensures ms[5] == Before(SubGranting(CHANGED, 9, Some(PREVIOUS))) && ms[6] == Before(CHANGE)
    ensures forall i | 0 <= i < 6 :: !acts[i].Drop?
  {
    hide IsServiceRun, Goes, Before, Scene, Open, Inv;
    OpenRun(EXPIRING) by { ExpiringInv(); }
    OpensAs(EXPIRING, PREVIOUS);
    ms, acts := [Scene(9000, EXPIRING, PREVIOUS, map[], {})], [];
    ChangeGoes();
    ms, acts := Then(ms, acts, Begin(0, SubStart(CHANGED)), Before(SubStart(CHANGED)));
    ms, acts := Then(ms, acts, Step(0, INPUT), Before(SubVerifying(CHANGED)));
    ms, acts := Then(ms, acts, Step(0, INPUT), Before(SubSweeping(CHANGED, 9)));
    ms, acts := Then(ms, acts, Step(0, INPUT), Before(SubReading(CHANGED, 9)));
    ChangeReads();
    ms, acts := Then(ms, acts, Step(0, INPUT), Before(SubGranting(CHANGED, 9, Some(PREVIOUS))));
    ms, acts := Then(ms, acts, Step(0, INPUT), Before(CHANGE));
  }

  lemma ReadAndSwept() returns (ms: seq<Machine>, acts: seq<Action>)
    ensures |acts| == 10 && |ms| == 11 && IsServiceRun(ms, acts) && ms[0] == Open(EXPIRING, "o", "f", 9000)
    ensures ms[4] == Before(SubReading(CHANGED, 9)) && acts[4] == Step(0, INPUT)
    ensures ms[5] == Before(SubGranting(CHANGED, 9, Some(PREVIOUS))) && ms[6] == Before(CHANGE) && ms[7] == Waiting()
    ensures ms[8] == Meanwhile(EXPIRING, TickStart(MCP)) && ms[9] == Meanwhile(EXPIRING, TickSweeping(MCP, 10))
    ensures acts[9] == Step(1, INPUT) && ms[10] == Meanwhile(SWEPT, TickReady(MCP))
    ensures forall i | 0 <= i < 10 :: !acts[i].Drop?
  {
    hide IsServiceRun, Goes, Before, Meanwhile, Waiting, Open;
    ms, acts := ReadAndGranted();
    TickBegins();
    ms, acts := Then(ms, acts, Advance(1000), Waiting());
    ms, acts := Then(ms, acts, Begin(1, TickStart(MCP)), Meanwhile(EXPIRING, TickStart(MCP)));
    ms, acts := Then(ms, acts, Step(1, INPUT), Meanwhile(EXPIRING, TickSweeping(MCP, 10)));
    TickSweeps();
    ms, acts := Then(ms, acts, Step(1, INPUT), Meanwhile(SWEPT, TickReady(MCP)));
  }

  lemma ExpiringInv()
    ensures Inv(EXPIRING)
  {
  }

  /** A subscribe reads a row that expires at 10, a tick sweeps it at 10, and the write still carries
      the swept row's secret: nothing was dropped, and the store held nothing to rotate. */
  lemma SweptRowIsCarriedOver() returns (ms: seq<Machine>, acts: seq<Action>)
    ensures |acts| == 11 && IsServiceRun(ms, acts) && ms[0] == Open(EXPIRING, "o", "f", 9000)
    ensures (forall i | 0 <= i < 11 :: !acts[i].Drop?) && LapsedWrite(ms, acts, 10) && StillCarried(ms, acts, ID, 11)
    ensures Lookup(ms[10], ID).None? && Lookup(ms[11], ID) == Some(ROTATED) && Signers(ROTATED, 10) == [[2], [1]]
  {
    hide IsServiceRun, Goes, Open, LapsedWrite, WritesId, Before, Meanwhile, Waiting;
    ms, acts := ReadAndSwept();
    var written := WriteLands();
    ms, acts := Then(ms, acts, Step(0, INPUT), written);
    WriteHasLapsed(ms, acts);
    assert Lookup(Meanwhile(SWEPT, TickReady(MCP)), ID).None? by { SweptHasNothing(); }
  }

  lemma SweptHasNothing()
    ensures Lookup(Meanwhile(SWEPT, TickReady(MCP)), ID).None?
    ensures WritesId(Meanwhile(SWEPT, TickReady(MCP)), Step(0, INPUT), ID)
  {
  }

  lemma WriteHasLapsed(ms: seq<Machine>, acts: seq<Action>)
    requires |acts| == 11 && |ms| == 12 && acts[4] == Step(0, INPUT)
    requires ms[4] == Before(SubReading(CHANGED, 9)) && ms[5] == Before(SubGranting(CHANGED, 9, Some(PREVIOUS)))
    requires ms[6] == Before(CHANGE) && ms[7] == Waiting() && ms[8] == Meanwhile(EXPIRING, TickStart(MCP))
    requires ms[9] == Meanwhile(EXPIRING, TickSweeping(MCP, 10)) && acts[9] == Step(1, INPUT)
    requires ms[10] == Meanwhile(SWEPT, TickReady(MCP)) && acts[10] == Step(0, INPUT)
    ensures LapsedWrite(ms, acts, 10) && StillCarried(ms, acts, ID, 11)
  {
    hide Goes, WritesId;
    assert ReadAt(ms, acts, 4, 10, 0);
    TickSweeps();
    assert SweepsAt(ms[9], acts[9], 10);
    assert Lapsed(ms, acts, 4, 10, Some(PREVIOUS));
    assert CarriedAndLapsed(ms, acts, 4, 10, ms[10].tasks[0]);
    SweptHasNothing();
  }
}
