/** What a delivery tick leaves in the store, from the post it made to the row it was made for. */
module ServiceDelivery {
  import opened Wrappers
  import opened Outbox
  import opened OutboxInvariants
  import opened OutboxRuns
  import opened DeliveryPolicy
  import opened Service
  import opened ServiceInvariants
  import opened ServiceRuns

  /** The action is one of task k, or ends it. */
  predicate Touches(a: Action, k: TaskId) { a.Restart? || ((a.Begin? || a.Step? || a.Drop?) && a.task == k) }

  lemma {:induction false} TaskWaits(ms: seq<Machine>, acts: seq<Action>, i: nat, j: nat, k: TaskId)
    requires IsServiceRun(ms, acts) && i <= j < |ms| && k in ms[i].tasks
    requires forall n | i <= n < j :: !Touches(acts[n], k)
    ensures k in ms[j].tasks && ms[j].tasks[k] == ms[i].tasks[k]
  {
    hide ServiceInv, ItemsSound, Apply, Enabled;
    if i < j {
      TaskWaits(ms, acts, i, j - 1, k);
      UntouchedStep(ms[j - 1], acts[j - 1], k);
    }
  }

  lemma UntouchedStep(m: Machine, a: Action, k: TaskId)
    requires Enabled(m, a) && k in m.tasks && !Touches(a, k)
    ensures k in Apply(m, a).tasks && Apply(m, a).tasks[k] == m.tasks[k]
  {
    hide Allowed, After, Next, OpOf, CacheAfter, DirtyAfter;
  }

  /** What a post with this outcome, ended at this reading, makes of the row. */
  predicate Posted(outcome: Result<nat, Failure>, at: int, before: Row, after: Row)
  {
    && (after.status == Delivered <==> Accepted(outcome))
    && (after.status == DeadLetter <==> !Accepted(outcome) && (Permanent(outcome) || before.attempts >= MAX_ATTEMPTS))
    && (after.status == Retry <==> !Accepted(outcome) && !Permanent(outcome) && before.attempts < MAX_ATTEMPTS)
    && after.availableAt == (if Accepted(outcome) || Permanent(outcome) then 0 else at + RetryDelay(before.attempts))
    && after.lastHttpStatus == (if outcome.Ok? then Some(outcome.value) else None)
    && (after.lastError == None <==> Accepted(outcome))
    && (after.lastError == Some(HttpPermanent) <==> outcome == Ok(410) || outcome == Ok(413))
    && (after.lastError == Some(Transport) <==> outcome == Err(TransportFailed))
    && (after.lastError == Some(UnsafeDestination) <==> outcome == Err(InvalidUrl))
    && (after.lastError == Some(InvalidSecret) <==> outcome == Err(BadSecret))
    && (after.lastError == Some(InvalidPayload) <==> outcome == Err(BadPayload))
    && (after.lastError == Some(RequestTooLarge) <==> outcome == Err(TooLarge))
    && after == before.(
         status := after.status, availableAt := after.availableAt, lastHttpStatus := after.lastHttpStatus,
         lastError := after.lastError, lastAttemptAt := Some(at), leaseToken := None, leaseUntil := None)
  }

  lemma PostStep(m: Machine, a: Action, k: TaskId)
    requires Enabled(m, a) && a.Step? && a.task == k && m.tasks[k].TickPosting?
    ensures k in Apply(m, a).tasks && Apply(m, a).store == m.store
    ensures var t := Apply(m, a).tasks[k];
      t.TickCompleting? && t.item == m.tasks[k].item && t.result == Classify(a.x.outcome, t.item.attempts, Now(m))
  {
  }

  lemma CompletionStep(m: Machine, a: Action, k: TaskId)
    requires Enabled(m, a) && a.Step? && a.task == k && m.tasks[k].TickCompleting?
    ensures var t := m.tasks[k];
      k !in Apply(m, a).tasks && Apply(m, a).store == Complete(m.store, t.item.id, t.item.token, t.result, MAX_ATTEMPTS)
  {
  }

  lemma ResultMeans(outcome: Result<nat, Failure>, at: int, row: Row)
    ensures Posted(outcome, at, row, CompletedRow(row, Classify(outcome, row.attempts, at), MAX_ATTEMPTS))
  {
    hide RetryDelay;
  }

  /** In every interleaving: a tick posts and, as its next step, completes. If its lease still stands the
      row becomes what the outcome of that very post says, and nothing else in the store changes; if not,
      nothing changes at all. */
  lemma PostDecidesStoredRow(ms: seq<Machine>, acts: seq<Action>, i: nat, j: nat, k: TaskId)
    requires IsServiceRun(ms, acts) && i < j < |acts| && k in ms[i].tasks && ms[i].tasks[k].TickPosting?
    requires acts[i].Step? && acts[i].task == k && acts[j].Step? && acts[j].task == k
    requires forall n | i < n < j :: !Touches(acts[n], k)
    ensures var r, s, s' := ms[i].tasks[k].item.id, ms[j].store, ms[j + 1].store;
      if HoldsLease(s, r, ms[i].tasks[k].item.token) then
        && r in s'.rows && Posted(acts[i].x.outcome, Now(ms[i]), s.rows[r], s'.rows[r])
        && s' == s.(rows := s.rows[r := s'.rows[r]])
      else s' == s
    ensures k !in ms[j + 1].tasks
  {
    hide ServiceInv, ItemsSound, Apply, Enabled, Classify, CompletedRow, Posted, Now;
    assert Enabled(ms[i], acts[i]) && ms[i + 1] == Apply(ms[i], acts[i]);
    assert Enabled(ms[j], acts[j]) && ms[j + 1] == Apply(ms[j], acts[j]);
    PostStep(ms[i], acts[i], k);
    TaskWaits(ms, acts, i + 1, j, k);
    CompletionStep(ms[j], acts[j], k);
    var item := ms[i].tasks[k].item;
    if HoldsLease(ms[j].store, item.id, item.token) {
      RunItemsSound(ms, acts, j);
      AttemptsAsClaimed(ms[j], k);
      ResultMeans(acts[i].x.outcome, Now(ms[i]), ms[j].store.rows[item.id]);
    }
  }

  lemma AttemptsAsClaimed(m: Machine, k: TaskId)
    requires ItemsSound(m) && k in m.tasks && Delivering(m.tasks[k])
    requires HoldsLease(m.store, m.tasks[k].item.id, m.tasks[k].item.token)
    ensures m.store.rows[m.tasks[k].item.id].attempts == m.tasks[k].item.attempts
  {
    assert ItemSound(m.store, m.tasks[k]);
  }

  /** So the backoff of a failed post is kept: the row is next claimed only by a claim that read its clock
      `RetryDelay` or more after the post ended. */
  lemma RetriedPostWaits(ms: seq<Machine>, acts: seq<Action>, i: nat, j: nat, l: nat, k: TaskId)
    requires IsServiceRun(ms, acts) && i < j < l < |acts| && k in ms[i].tasks && ms[i].tasks[k].TickPosting?
    requires acts[i].Step? && acts[i].task == k && acts[j].Step? && acts[j].task == k
    requires forall n | i < n < j :: !Touches(acts[n], k)
    requires var r := ms[i].tasks[k].item.id;
      && HoldsLease(ms[j].store, r, ms[i].tasks[k].item.token) && r in ms[j + 1].store.rows
      && ms[j + 1].store.rows[r].status == Retry && Leases(ms[l].store, ActionOp(ms[l], acts[l]), r)
      && forall n | j < n < l :: !Leases(ms[n].store, ActionOp(ms[n], acts[n]), r)
    ensures acts[l].Step? && acts[l].task in ms[l].tasks && ms[l].tasks[acts[l].task].TickClaiming?
    ensures ms[l].tasks[acts[l].task].now >= Now(ms[i]) + RetryDelay(ms[i].tasks[k].item.attempts)
  {
    hide ServiceInv, ItemsSound, Apply, RetryDelay, Now, Leases;
    var r, ss, ops := ms[i].tasks[k].item.id, Stores(ms), Ops(ms, acts);
    assert Enabled(ms[i], acts[i]) && ms[i + 1] == Apply(ms[i], acts[i]);
    PostStep(ms[i], acts[i], k);
    TaskWaits(ms, acts, i + 1, j, k);
    PostDecidesStoredRow(ms, acts, i, j, k);
    RunItemsSound(ms, acts, j);
    AttemptsAsClaimed(ms[j], k);
    StoreRun(ms, acts);
    assert Enabled(ms[l], acts[l]);
    LeaseIsClaim(ms[l], acts[l], r);
    assert ops[j] == ActionOp(ms[j], acts[j]) && ops[l] == ActionOp(ms[l], acts[l]);
    assert forall n | j < n < l :: ss[n] == ms[n].store && ops[n] == ActionOp(ms[n], acts[n]);
    RetryWaits(ss, ops, j, l, r);
    RunInv(ss, ops, j);
    RetriedRow(ss[j], ops[j], r);
  }

  /** A claim that leased a row goes on to post exactly that row: with its payload and event, the attempt
      counted, the token it will complete with, and the subscription as it was stored. */
  lemma LeasedRowIsPosted(m: Machine, a: Action, k: TaskId, r: Uuid)
    requires Inv(m.store) && Enabled(m, a) && a.Step? && a.task == k && m.tasks[k].TickClaiming?
    requires Leases(m.store, ActionOp(m, a), r)
    ensures r in m.store.rows && m.store.rows[r].occurrence in m.store.occs
    ensures m.store.rows[r].subscription in m.store.subs
    ensures k in Apply(m, a).tasks && Apply(m, a).tasks[k].TickPosting? && Apply(m, a).tasks[k].lane == m.tasks[k].lane
    ensures var item, row := Apply(m, a).tasks[k].item, m.store.rows[r];
      item == Item(r, row.occurrence, m.store.occs[row.occurrence].eventId, row.payload, row.attempts + 1, a.x.token,
                   row.subscription, m.store.subs[row.subscription])
  {
    hide Inv, CacheAfter, DirtyAfter, Claim;
    ClaimTakesEarliest(m.store, ActionOp(m, a).q);
  }
}
