/** Safety of the outbox over whole runs: any transactions, in any order, with any clock readings. */
module OutboxRuns {
  import opened Wrappers
  import opened Outbox
  import opened OutboxInvariants
  import opened DeliveryPolicy

  ghost predicate IsRun(ss: seq<Store>, ops: seq<Op>)
  {
    && |ss| == |ops| + 1 && Inv(ss[0])
    && forall i | 0 <= i < |ops| :: Ready(ss[i], ops[i]) && ss[i + 1] == Next(ss[i], ops[i])
  }

  lemma {:induction false} RunInv(ss: seq<Store>, ops: seq<Op>, i: nat)
    requires IsRun(ss, ops) && i < |ss|
    ensures Inv(ss[i])
  {
    hide Inv, Next, Ready;
    if i > 0 {
      RunInv(ss, ops, i - 1);
      NextKeepsInv(ss[i - 1], ops[i - 1]);
    }
  }

  // ---- rows over a run ----

  lemma {:induction false} StaysDeleted(ss: seq<Store>, ops: seq<Op>, i: nat, j: nat, r: Uuid)
    requires IsRun(ss, ops) && i <= j < |ss| && r in ss[i].used && r !in ss[i].rows
    ensures r in ss[j].used && r !in ss[j].rows
  {
    hide Inv, Next, Ready;
    if i < j {
      StaysDeleted(ss, ops, i, j - 1, r);
      RunInv(ss, ops, j - 1);
      DeletedStaysDeleted(ss[j - 1], ops[j - 1], r);
    }
  }

  /** A row present at both ends of a stretch is present throughout it. */
  lemma PresentBetween(ss: seq<Store>, ops: seq<Op>, i: nat, k: nat, j: nat, r: Uuid)
    requires IsRun(ss, ops) && i <= k <= j < |ss| && r in ss[i].rows && r in ss[j].rows
    ensures r in ss[k].rows
  {
    if r !in ss[k].rows {
      RunInv(ss, ops, i);
      UsedGrows(ss, ops, i, k);
      StaysDeleted(ss, ops, k, j, r);
    }
  }

  lemma {:induction false} UsedGrows(ss: seq<Store>, ops: seq<Op>, i: nat, j: nat)
    requires IsRun(ss, ops) && i <= j < |ss|
    ensures ss[i].used <= ss[j].used
  {
    if i < j { UsedGrows(ss, ops, i, j - 1); }
  }

  /** Over any stretch a row keeps its identity and payload, its expiry never rises, its attempts
      never fall, and once delivered or dead-lettered its status and attempts are final. */
  lemma {:induction false} RowOverTime(ss: seq<Store>, ops: seq<Op>, i: nat, j: nat, r: Uuid)
    requires IsRun(ss, ops) && i <= j < |ss| && r in ss[i].rows && r in ss[j].rows
    ensures Later(ss[i].rows[r], ss[j].rows[r])
  {
    hide Inv, Next, Ready;
    if i < j {
      PresentBetween(ss, ops, i, j - 1, j, r);
      RowOverTime(ss, ops, i, j - 1, r);
      RunInv(ss, ops, j - 1);
      RowEvolves(ss[j - 1], ops[j - 1], r);
    }
  }

  // ---- leases ----

  lemma {:induction false} StaysDead(ss: seq<Store>, ops: seq<Op>, i: nat, j: nat, token: Uuid)
    requires IsRun(ss, ops) && i <= j < |ss| && Dead(ss[i], token)
    ensures Dead(ss[j], token)
  {
    hide Inv, Next, Ready, Dead;
    if i < j {
      StaysDead(ss, ops, i, j - 1, token);
      RunInv(ss, ops, j - 1);
      DeadStaysDead(ss[j - 1], ops[j - 1], token);
    }
  }

  /** `token` was drawn and only row `r` may still carry it. */
  ghost predicate OnlyOn(s: Store, token: Uuid, r: Uuid)
  {
    token in s.used && forall x <- s.rows :: s.rows[x].leaseToken == Some(token) ==> x == r
  }

  lemma OnlyOnStep(s: Store, op: Op, token: Uuid, r: Uuid)
    requires Inv(s) && Ready(s, op) && OnlyOn(s, token, r)
    ensures OnlyOn(Next(s, op), token, r)
  {
    hide Next, Inv;
    RowSteps(s, op);
  }

  lemma {:induction false} StaysOnlyOn(ss: seq<Store>, ops: seq<Op>, i: nat, j: nat, token: Uuid, r: Uuid)
    requires IsRun(ss, ops) && i <= j < |ss| && OnlyOn(ss[i], token, r)
    ensures OnlyOn(ss[j], token, r)
  {
    hide Inv, Next, Ready, OnlyOn;
    if i < j {
      StaysOnlyOn(ss, ops, i, j - 1, token, r);
      RunInv(ss, ops, j - 1);
      OnlyOnStep(ss[j - 1], ops[j - 1], token, r);
    }
  }

  lemma ClaimPutsToken(s: Store, op: Op, r: Uuid)
    requires Inv(s) && Ready(s, op) && Leases(s, op, r)
    ensures r in s.rows && r in Next(s, op).rows
    ensures Next(s, op).rows[r] == LeasedRow(s.rows[r], op.q)
    ensures OnlyOn(Next(s, op), op.q.token, r)
  {
    ClaimTakesEarliest(s, op.q);
  }

  /** The token of a claim that a later claim of the same row superseded can never complete. */
  lemma SupersededLeaseNeverCompletes(ss: seq<Store>, ops: seq<Op>, i: nat, j: nat, k: nat, r: Uuid)
    requires IsRun(ss, ops) && i < j < k < |ops|
    requires Leases(ss[i], ops[i], r) && Leases(ss[j], ops[j], r)
    requires ops[k].DoComplete? && ops[k].token == ops[i].q.token
    ensures !Completes(ss[k], ops[k])
  {
    RunInv(ss, ops, i);
    ClaimPutsToken(ss[i], ops[i], r);
    StaysOnlyOn(ss, ops, i + 1, j, ops[i].q.token, r);
    RunInv(ss, ops, j);
    ClaimPutsToken(ss[j], ops[j], r);
    OnlyOnStep(ss[j], ops[j], ops[i].q.token, r);
    StaysDead(ss, ops, j + 1, k, ops[i].q.token);
  }

  /** A claim is completed at most once. */
  lemma LeaseCompletesOnce(ss: seq<Store>, ops: seq<Op>, i: nat, j: nat)
    requires IsRun(ss, ops) && i < j < |ops| && Completes(ss[i], ops[i])
    requires ops[j].DoComplete? && ops[j].token == ops[i].token
    ensures !Completes(ss[j], ops[j])
  {
    RunInv(ss, ops, i);
    assert OnlyOn(ss[i], ops[i].token, ops[i].row);
    assert Dead(ss[i + 1], ops[i].token);
    StaysDead(ss, ops, i + 1, j, ops[i].token);
  }

  ghost predicate Untouched(ss: seq<Store>, ops: seq<Op>, i: nat, j: nat, r: Uuid)
    requires |ss| == |ops| + 1 && j <= |ops|
  {
    forall k | i < k < j :: !Leases(ss[k], ops[k], r) && !(Completes(ss[k], ops[k]) && ops[k].row == r)
  }

  lemma {:induction false} LeasePersists(ss: seq<Store>, ops: seq<Op>, i: nat, j: nat, r: Uuid)
    requires IsRun(ss, ops) && i < j < |ss| && Leases(ss[i], ops[i], r) && r in ss[j].rows
    requires Untouched(ss, ops, i, j, r)
    ensures ss[j].rows[r].leaseToken == Some(ops[i].q.token)
    ensures ss[j].rows[r].leaseUntil == Some(ops[i].q.leaseUntil)
    decreases j
  {
    hide Inv, Next, Ready;
    RunInv(ss, ops, i);
    ClaimPutsToken(ss[i], ops[i], r);
    if i + 1 < j {
      PresentBetween(ss, ops, i + 1, j - 1, j, r);
      LeasePersists(ss, ops, i, j - 1, r);
      RunInv(ss, ops, j - 1);
      RowEvolves(ss[j - 1], ops[j - 1], r);
    }
  }

  /** No two unexpired leases: a row whose lease was not completed is leased again only at a clock
      reading at or past that lease's deadline. */
  lemma LeasesNeverOverlap(ss: seq<Store>, ops: seq<Op>, i: nat, j: nat, r: Uuid)
    requires IsRun(ss, ops) && i < j < |ops| && Leases(ss[i], ops[i], r) && Leases(ss[j], ops[j], r)
    requires Untouched(ss, ops, i, j, r)
    ensures ops[j].q.now >= ops[i].q.leaseUntil
  {
    RunInv(ss, ops, j);
    ClaimTakesEarliest(ss[j], ops[j].q);
    LeasePersists(ss, ops, i, j, r);
  }

  // ---- what a claim may take, column by column ----

  /** A row the worker may be given: not finished, due, not leased, unexpired, and of a live subscription
      of this owner, under this credential and on this lane. */
  ghost predicate Due(s: Store, q: Query, r: Uuid)
  {
    exists row, sub ::
      && r in s.rows && row == s.rows[r] && row.subscription in s.subs && sub == s.subs[row.subscription]
      && row.status in {Pending, Retry, Leased} && row.availableAt <= q.now && row.expiresAt > q.now
      && (row.leaseUntil.Some? ==> row.leaseUntil.value <= q.now)
      && sub.active && sub.owner == q.owner && sub.fingerprint == q.fingerprint
      && (sub.expiresAt.Some? ==> sub.expiresAt.value > q.now) && (q.kind.Some? ==> sub.kind == q.kind.value)
  }

  lemma DueIsClaimable(s: Store, q: Query, r: Uuid)
    requires Linked(s)
    ensures Claimable(s, q, r) <==> Due(s, q, r)
  {
    if Claimable(s, q, r) {
      var row := s.rows[r];
      var sub := s.subs[row.subscription];
      assert r in s.rows && row == s.rows[r] && row.subscription in s.subs && sub == s.subs[row.subscription];
    }
  }

  /** A claim leases a row exactly when one is due. It takes the one that has been available longest, by id
      among equals, counts the attempt, notes token, deadline and time, and changes nothing else. */
  lemma ClaimLeasesDueRow(s: Store, q: Query)
    requires Inv(s)
    ensures (exists r :: Due(s, q, r)) <==> exists r :: Leases(s, DoClaim(q), r)
    ensures forall r | Leases(s, DoClaim(q), r) ::
      && Due(s, q, r)
      && (forall other | Due(s, q, other) ::
            (s.rows[r].availableAt, r) == (s.rows[other].availableAt, other)
            || s.rows[r].availableAt < s.rows[other].availableAt
            || (s.rows[r].availableAt == s.rows[other].availableAt && r < other))
      && Next(s, DoClaim(q)) == s.(used := s.used + {q.token}, rows := s.rows[r :=
           s.rows[r].(status := Leased, attempts := s.rows[r].attempts + 1, leaseToken := Some(q.token),
                      leaseUntil := Some(q.leaseUntil), lastAttemptAt := Some(q.now))])
  {
    hide Due, Unique, LeasesSound, AllDrawn;
    forall r ensures Claimable(s, q, r) <==> Due(s, q, r) { DueIsClaimable(s, q, r); }
    ClaimTakesEarliest(s, q);
    hide Linked, Claimable;
    if NextRow(s, q).Some? { assert Leases(s, DoClaim(q), NextRow(s, q).value); }
  }

  // ---- a retry waits ----

  lemma RetriedRow(s: Store, op: Op, r: Uuid)
    requires Inv(s) && Completes(s, op) && op.row == r && Next(s, op).rows[r].status == Retry
    ensures op.result.WantsRetry? && Next(s, op).rows[r].availableAt == op.result.nextAt
  {
  }

  lemma {:induction false} WaitPersists(ss: seq<Store>, ops: seq<Op>, i: nat, j: nat, r: Uuid)
    requires IsRun(ss, ops) && i <= j < |ss| && r in ss[i].rows && r in ss[j].rows && ss[i].rows[r].status == Retry
    requires forall n | i <= n < j :: !Leases(ss[n], ops[n], r)
    ensures ss[j].rows[r].status == Retry && ss[j].rows[r].availableAt == ss[i].rows[r].availableAt
    decreases j
  {
    hide Inv, Next, Ready, Leases;
    if i < j {
      PresentBetween(ss, ops, i, j - 1, j, r);
      WaitPersists(ss, ops, i, j - 1, r);
      RunInv(ss, ops, j - 1);
      RowEvolves(ss[j - 1], ops[j - 1], r);
    }
  }

  /** Backoff is enforced: a row put back for retry is next leased only by a claim whose reading is at or
      past the time the completion named, whatever happens in between. */
  lemma RetryWaits(ss: seq<Store>, ops: seq<Op>, i: nat, j: nat, r: Uuid)
    requires IsRun(ss, ops) && i < j < |ops| && Completes(ss[i], ops[i]) && ops[i].row == r
    requires r in ss[i + 1].rows && ss[i + 1].rows[r].status == Retry && Leases(ss[j], ops[j], r)
    requires forall n | i < n < j :: !Leases(ss[n], ops[n], r)
    ensures ops[i].result.WantsRetry? && ops[j].q.now >= ops[i].result.nextAt
  {
    hide Next, Ready, Inv;
    RunInv(ss, ops, i);
    RetriedRow(ss[i], ops[i], r);
    ClaimTakesEarliest(ss[j], ops[j].q);
    WaitPersists(ss, ops, i + 1, j, r);
  }

  // ---- cancelling ----

  /** The subscriptions a cancelling transaction reaches. */
  function Cancelled(s: Store, op: Op): set<SubId>
  {
    match op
    case DoCancel(id, owner, _) => if Owns(s, id, owner) then {id} else {}
    case DoCancelKind(kind, _) => OfKind(s, kind)
    case _ => {}
  }

  /** Once a cancel or a revoke at time c has committed, no row that existed then is returned by
      a claim whose clock reading is c or later, whatever happens in between, re-activation of the
      same subscription id included. */
  lemma CancelledRowsStayUnclaimed(ss: seq<Store>, ops: seq<Op>, i: nat, j: nat, r: Uuid)
    requires IsRun(ss, ops) && i < j < |ops| && (ops[i].DoCancel? || ops[i].DoCancelKind?)
    requires r in ss[i].rows && ss[i].rows[r].subscription in Cancelled(ss[i], ops[i])
    requires ops[j].DoClaim? && ops[j].q.now >= ops[i].now
    ensures !Leases(ss[j], ops[j], r)
  {
    ClaimTakesEarliest(ss[j], ops[j].q);
    if Leases(ss[j], ops[j], r) {
      assert r in ss[i + 1].rows && ss[i + 1].rows[r].expiresAt <= ops[i].now;
      RowOverTime(ss, ops, i + 1, j, r);
      assert false;
    }
  }

  /** What a claim asks of a subscription. */
  predicate Suits(sub: Subscription, q: Query)
  {
    Live(sub, q.owner, q.now) && sub.fingerprint == q.fingerprint && (q.kind.None? || sub.kind == q.kind.value)
  }

  /** A claim that would have taken a row before it was cancelled takes it after the subscription is
      written again, with no sweep in between, if and only if it read its clock before the cancel
      read its own and the subscription as written suits it. */
  lemma RewrittenRowClaimedIffClockOlder(s: Store, op: Op, sub: Subscription, q: Query, r: Uuid)
    requires (op.DoCancel? || op.DoCancelKind?) && IsNext(s, q, r) && s.rows[r].subscription in Cancelled(s, op)
    requires UpsertAllowed(s, s.rows[r].subscription, sub)
    ensures NextRow(Upsert(Next(s, op), s.rows[r].subscription, sub), q) == Some(r) <==> q.now < op.now && Suits(sub, q)
  {
    var id := s.rows[r].subscription;
    var t := Upsert(Next(s, op), id, sub);
    assert id in Next(s, op).subs && t.subs[id] == sub;
    ClaimTakesEarliest(t, q);
    assert r in t.rows && t.rows[r] == s.rows[r].(expiresAt := Min(s.rows[r].expiresAt, op.now));
    if q.now < op.now && Suits(sub, q) {
      forall x | Claimable(t, q, x) ensures Before(t, r, x) { RewrittenClaimable(s, op, sub, q, r, x); }
      NextRowUnique(t, q, r);
    }
  }

  lemma RewrittenClaimable(s: Store, op: Op, sub: Subscription, q: Query, r: Uuid, x: Uuid)
    requires (op.DoCancel? || op.DoCancelKind?) && IsNext(s, q, r) && s.rows[r].subscription in Cancelled(s, op)
    requires Claimable(Upsert(Next(s, op), s.rows[r].subscription, sub), q, x)
    ensures x in s.rows && Before(s, r, x)
  {
    assert x in s.rows;
    assert Claimable(s, q, x);
  }

  // ---- retry budget ----

  ghost predicate LeavesRetry(s: Store, op: Op, r: Uuid)
  {
    Completes(s, op) && op.row == r && Next(s, op).rows[r].status == Retry
  }

  lemma LeavesRetryKeepsRow(s: Store, op: Op, r: Uuid)
    ensures LeavesRetry(s, op, r) ==>
      && r in s.rows && r in Next(s, op).rows
      && op.result.WantsRetry? && s.rows[r].attempts < op.maxAttempts
  {
  }

  /** How many of the first n transactions completed row r into Retry. */
  ghost function Retries(ss: seq<Store>, ops: seq<Op>, r: Uuid, n: nat): nat
    requires n <= |ops| < |ss|
  {
    if n == 0 then 0
    else Retries(ss, ops, r, n - 1) + (if LeavesRetry(ss[n - 1], ops[n - 1], r) then 1 else 0)
  }

  ghost predicate BoundedBy(ops: seq<Op>, maxAttempts: int)
  {
    forall i | 0 <= i < |ops| && ops[i].DoComplete? :: ops[i].maxAttempts == maxAttempts
  }

  function Held(row: Row): nat { if row.status == Leased then 1 else 0 }

  lemma {:induction false} RetriesBelowAttempts(ss: seq<Store>, ops: seq<Op>, r: Uuid, n: nat, maxAttempts: int)
    requires IsRun(ss, ops) && n <= |ops| && BoundedBy(ops, maxAttempts)
    ensures r in ss[n].rows ==> Retries(ss, ops, r, n) + Held(ss[n].rows[r]) <= ss[n].rows[r].attempts
    ensures Retries(ss, ops, r, n) > 0 ==> r in ss[n].used && Retries(ss, ops, r, n) < maxAttempts
  {
    hide Ready, Next, Linked, Unique, Leases;
    RunInv(ss, ops, n);
    if n > 0 {
      RetriesBelowAttempts(ss, ops, r, n - 1, maxAttempts);
      RunInv(ss, ops, n - 1);
      UsedGrows(ss, ops, n - 1, n);
      LeavesRetryKeepsRow(ss[n - 1], ops[n - 1], r);
      RowSteps(ss[n - 1], ops[n - 1]);
    }
  }

  /** Abandoned leases included, a run records fewer retries of a row than the maximum, and a
      completion at or past the maximum is terminal. */
  lemma RetryBudget(ss: seq<Store>, ops: seq<Op>, r: Uuid)
    requires IsRun(ss, ops) && BoundedBy(ops, MAX_ATTEMPTS)
    ensures Retries(ss, ops, r, |ops|) <= MAX_ATTEMPTS - 1
    ensures forall i | 0 <= i < |ops| && Completes(ss[i], ops[i]) && ss[i].rows[ops[i].row].attempts >= MAX_ATTEMPTS ::
      Terminal(ss[i + 1].rows[ops[i].row].status)
  {
    RetriesBelowAttempts(ss, ops, r, |ops|, MAX_ATTEMPTS);
  }

  // ---- backoff ----

  /** No lease of r is ever left to expire and be taken over. */
  ghost predicate EveryClaimCompleted(ss: seq<Store>, ops: seq<Op>, r: Uuid)
    requires |ss| == |ops| + 1
  {
    forall i | 0 <= i < |ops| && Leases(ss[i], ops[i], r) && r in ss[i].rows :: ss[i].rows[r].status != Leased
  }

  /** Retry results wait as the worker schedules them. */
  ghost predicate ScheduledByWorker(ss: seq<Store>, ops: seq<Op>)
    requires |ss| == |ops| + 1
  {
    forall i | 0 <= i < |ops| && Completes(ss[i], ops[i]) && ops[i].result.WantsRetry? ::
      ops[i].result.nextAt == ops[i].result.at + RetryDelay(ss[i].rows[ops[i].row].attempts)
  }

  function Wait(op: Op): int
  {
    if op.DoComplete? && op.result.WantsRetry? then op.result.nextAt - op.result.at else 0
  }

  /** The waits scheduled by the retries of r among the first n transactions. */
  ghost function Backoff(ss: seq<Store>, ops: seq<Op>, r: Uuid, n: nat): int
    requires n <= |ops| < |ss|
  {
    if n == 0 then 0
    else Backoff(ss, ops, r, n - 1) + (if LeavesRetry(ss[n - 1], ops[n - 1], r) then Wait(ops[n - 1]) else 0)
  }

  /** While a row is live, `waited` is the backoff of the attempts completed so far. */
  predicate Tracks(row: Row, waited: int, scheduled: bool)
  {
    && row.attempts <= MAX_ATTEMPTS && Held(row) <= row.attempts
    && (row.status in {Pending, Retry} ==> row.attempts < MAX_ATTEMPTS)
    && (scheduled && !Terminal(row.status) ==> waited == TotalDelay(row.attempts - Held(row)))
  }

  lemma TracksStep(s: Store, op: Op, t: Store, r: Uuid, waited: int, scheduled: bool)
    requires r in t.rows && RowStep(s, op, t, r) && t == Next(s, op)
    requires if r in s.rows then Tracks(s.rows[r], waited, scheduled) else waited == 0
    requires op.DoComplete? ==> op.maxAttempts == MAX_ATTEMPTS
    requires Leases(s, op, r) && r in s.rows ==> s.rows[r].status != Leased
    requires scheduled && Completes(s, op) && op.row == r && op.result.WantsRetry? ==>
      Wait(op) == RetryDelay(s.rows[r].attempts)
    ensures Tracks(t.rows[r], waited + (if LeavesRetry(s, op, r) then Wait(op) else 0), scheduled)
  {
    hide Leases, Next;
  }

  lemma {:induction false} BackoffTracksAttempts(ss: seq<Store>, ops: seq<Op>, r: Uuid, n: nat)
    requires IsRun(ss, ops) && n <= |ops| && BoundedBy(ops, MAX_ATTEMPTS)
    requires r !in ss[0].used && EveryClaimCompleted(ss, ops, r)
    ensures r in ss[n].rows ==> Tracks(ss[n].rows[r], Backoff(ss, ops, r, n), ScheduledByWorker(ss, ops))
    ensures r !in ss[n].used ==> Backoff(ss, ops, r, n) == 0
  {
    hide Ready, Next, Linked, Unique, Leases, Tracks, RowStep;
    RunInv(ss, ops, n);
    if n > 0 {
      var s, op := ss[n - 1], ops[n - 1];
      BackoffTracksAttempts(ss, ops, r, n - 1);
      RunInv(ss, ops, n - 1);
      LeavesRetryKeepsRow(s, op, r);
      RowSteps(s, op);
      if r in ss[n].rows {
        assert RowStep(s, op, ss[n], r);
        if r !in s.rows && r in s.used { DeletedStaysDeleted(s, op, r); }
        TracksStep(s, op, ss[n], r, Backoff(ss, ops, r, n - 1), ScheduledByWorker(ss, ops));
      }
    }
  }

  /** A row whose every claim was completed never passes the maximum. */
  lemma AttemptsBounded(ss: seq<Store>, ops: seq<Op>, r: Uuid, n: nat)
    requires IsRun(ss, ops) && n <= |ops| && BoundedBy(ops, MAX_ATTEMPTS)
    requires r !in ss[0].used && EveryClaimCompleted(ss, ops, r)
    ensures r in ss[n].rows ==> ss[n].rows[r].attempts <= MAX_ATTEMPTS
  {
    BackoffTracksAttempts(ss, ops, r, n);
  }

  /** When retryable outcomes exhaust such a row, it has been attempted exactly the maximum number
      of times and the backoff it was given adds up to exactly 3580 seconds. */
  lemma ExhaustedBackoff(ss: seq<Store>, ops: seq<Op>, r: Uuid, i: nat)
    requires IsRun(ss, ops) && i < |ops| && BoundedBy(ops, MAX_ATTEMPTS)
    requires r !in ss[0].used && EveryClaimCompleted(ss, ops, r) && ScheduledByWorker(ss, ops)
    requires Completes(ss[i], ops[i]) && ops[i].row == r && ops[i].result.WantsRetry?
    requires ss[i + 1].rows[r].status == DeadLetter
    ensures ss[i + 1].rows[r].attempts == MAX_ATTEMPTS
    ensures Backoff(ss, ops, r, i) == 3580
  {
    hide Next, Ready, Tracks, EveryClaimCompleted, ScheduledByWorker, Backoff, Inv;
    RunInv(ss, ops, i);
    BackoffTracksAttempts(ss, ops, r, i);
    CompletedInto(ss[i], ops[i]);
    ExhaustedRow(ss[i].rows[r], ops[i].result, Backoff(ss, ops, r, i));
  }

  lemma CompletedInto(s: Store, op: Op)
    requires Completes(s, op)
    ensures op.row in s.rows && s.rows[op.row].status == Leased && op.row in Next(s, op).rows
    ensures Next(s, op).rows[op.row] == CompletedRow(s.rows[op.row], op.result, op.maxAttempts)
  {
  }

  lemma ExhaustedRow(row: Row, result: DeliveryResult, waited: int)
    requires Tracks(row, waited, true) && row.status == Leased && result.WantsRetry?
    requires CompletedRow(row, result, MAX_ATTEMPTS).status == DeadLetter
    ensures row.attempts == MAX_ATTEMPTS && waited == 3580
    ensures CompletedRow(row, result, MAX_ATTEMPTS).attempts == row.attempts
  {
    FullBackoff();
  }
}
