/** Rotation carried through the store: what signs a delivery after any run of transactions. */
module RotationRuns {
  import opened Wrappers
  import opened Outbox
  import opened OutboxInvariants
  import opened OutboxRuns
  import opened OutboxHistory
  import opened Rotation

  predicate Active(s: Store, id: SubId) { id in s.subs && s.subs[id].active }

  predicate IsActive(row: Option<Subscription>) { row.Some? && row.value.active }

  /** The rotation columns of `sub` are those of a write over `row` at reading `now`. */
  predicate ProofFrom(row: Option<Subscription>, sub: Subscription, now: int)
  {
    (sub.oldSecret, sub.oldSecretExpiresAt) == RotationProof(row, sub.secret, now)
  }

  // ---- the history of one id ----

  /** What a row found at the start says of its own past, up to reading `now`. */
  function FoundHistory(row: Option<Subscription>, now: int): seq<Event>
  {
    if !IsActive(row) then []
    else if row.value.oldSecret.Some? && row.value.oldSecretExpiresAt.Some? then
      var changed := row.value.oldSecretExpiresAt.value - ROTATION_SECONDS;
      [Wrote(row.value.oldSecret.value, changed), Wrote(row.value.secret, changed)]
    else [Wrote(row.value.secret, now)]
  }

  /** A row as rotation leaves it: old secret and deadline come together, the secrets differ, and the
      change that set the deadline is not in the future. */
  predicate Shaped(sub: Subscription, now: int)
  {
    && (sub.oldSecret.Some? <==> sub.oldSecretExpiresAt.Some?)
    && (sub.oldSecret.Some? ==>
          sub.oldSecret.value != sub.secret && sub.oldSecretExpiresAt.value <= now + ROTATION_SECONDS)
  }

  /** The row found at the start, the writes of id among the first n transactions, and the points where
      it stopped being active. */
  ghost function HistoryOf(ss: seq<Store>, ops: seq<Op>, at: seq<int>, id: SubId, start: seq<Event>, n: nat): seq<Event>
    requires |ss| == |ops| + 1 && |at| == |ops| && n <= |ops|
  {
    if n == 0 then start
    else
      var before := HistoryOf(ss, ops, at, id, start, n - 1);
      if Writes(ss[n - 1], ops[n - 1], id) then before + [Wrote(ops[n - 1].sub.secret, at[n - 1])]
      else if Active(ss[n - 1], id) && !Active(ss[n], id) then before + [Ended]
      else before
  }

  // ---- writes that rotate another row than the stored one ----

  /** Transaction i writes rotation columns that are not those of the row the store holds. */
  predicate Odd(s: Store, op: Op, at: int, id: SubId) { op.DoUpsert? && !ProofFrom(Find(s, id), op.sub, at) }

  /** An odd write is still felt: since then the subscription stayed active and kept its secret. */
  ghost predicate Stale(ss: seq<Store>, ops: seq<Op>, at: seq<int>, id: SubId, n: nat)
    requires |ss| == |ops| + 1 && |at| == |ops| && n <= |ops|
  {
    if n == 0 then false
    else if Writes(ss[n - 1], ops[n - 1], id) then
      || Odd(ss[n - 1], ops[n - 1], at[n - 1], id)
      || (Stale(ss, ops, at, id, n - 1) && Active(ss[n - 1], id) && ss[n - 1].subs[id].secret == ops[n - 1].sub.secret)
    else Stale(ss, ops, at, id, n - 1) && Active(ss[n], id)
  }

  /** Writes are of active rows, and odd only where no active row is stored. */
  ghost predicate OddOnlyAfresh(ss: seq<Store>, ops: seq<Op>, at: seq<int>, id: SubId, n: nat)
    requires |ss| == |ops| + 1 && |at| == |ops| && n <= |ops|
  {
    forall i | 0 <= i < n && Writes(ss[i], ops[i], id) ::
      ops[i].sub.active && (Odd(ss[i], ops[i], at[i], id) ==> !Active(ss[i], id))
  }

  // ---- the store follows the history ----

  function RotationColumns(sub: Subscription): (Bytes, Option<Bytes>, Option<int>)
  {
    (sub.secret, sub.oldSecret, sub.oldSecretExpiresAt)
  }

  /** While stale, the history knows of no change and the row has the secret last written; otherwise the
      row has the rotation the history gives. */
  predicate Follows(base: Subscription, h: seq<Event>, row: Option<Subscription>, stale: bool)
  {
    if IsActive(row) then
      && h != [] && h[|h| - 1].Wrote? && h[|h| - 1].secret == row.value.secret && Stored(base, h).Some?
      && (if stale then LastChange(h) == None
          else RotationColumns(Stored(base, h).value) == RotationColumns(row.value))
    else
      !stale && (h == [] || h[|h| - 1].Ended?)
  }

  lemma StoredAppend(base: Subscription, history: seq<Event>, e: Event)
    ensures Stored(base, history + [e]) ==
      match e
      case Ended => if Stored(base, history).Some? then Some(Stored(base, history).value.(active := false)) else None
      case Wrote(secret, at) =>
        var (oldSecret, until) := RotationProof(Stored(base, history), secret, at);
        Some(base.(secret := secret, oldSecret := oldSecret, oldSecretExpiresAt := until, active := true))
  {
    assert (history + [e])[..|history + [e]| - 1] == history;
  }

  lemma LastChangeAppend(h: seq<Event>, secret: Bytes, at: int)
    ensures LastChange(h + [Wrote(secret, at)]) ==
      if h == [] || h[|h| - 1].Ended? then None
      else if h[|h| - 1].secret != secret then Some((h[|h| - 1].secret, at))
      else LastChange(h)
  {
    assert (h + [Wrote(secret, at)])[..|h|] == h;
  }

  /** What the end of a history says of the stored row. */
  lemma StoredEnd(base: Subscription, h: seq<Event>)
    ensures h == [] || h[|h| - 1].Ended? ==> !IsActive(Stored(base, h))
    ensures h != [] && h[|h| - 1].Wrote? ==>
      IsActive(Stored(base, h)) && Stored(base, h).value.secret == h[|h| - 1].secret
  {
  }

  lemma FollowsFound(base: Subscription, row: Option<Subscription>, now: int)
    requires IsActive(row) ==> Shaped(row.value, now)
    ensures Follows(base, FoundHistory(row, now), row, false) && ClockMonotone(FoundHistory(row, now))
    ensures forall e <- FoundHistory(row, now) :: e.Wrote? && e.at <= now
  {
    if IsActive(row) && row.value.oldSecret.Some? {
      var changed := row.value.oldSecretExpiresAt.value - ROTATION_SECONDS;
      var first := Wrote(row.value.oldSecret.value, changed);
      StoredAppend(base, [], first);
      StoredAppend(base, [first], Wrote(row.value.secret, changed));
      assert [first] + [Wrote(row.value.secret, changed)] == FoundHistory(row, now);
    }
  }

  lemma FollowsWrite(
    base: Subscription, h: seq<Event>, row: Option<Subscription>, stale: bool, sub: Subscription, at: int)
    requires Follows(base, h, row, stale) && sub.active && (IsActive(row) ==> ProofFrom(row, sub, at))
    ensures Follows(base, h + [Wrote(sub.secret, at)], Some(sub),
                    !ProofFrom(row, sub, at) || (stale && IsActive(row) && row.value.secret == sub.secret))
  {
    hide Stored, LastChange;
    StoredAppend(base, h, Wrote(sub.secret, at));
    LastChangeAppend(h, sub.secret, at);
    StoredEnd(base, h);
  }

  lemma {:induction false} StoreFollowsHistory(
    ss: seq<Store>, ops: seq<Op>, at: seq<int>, id: SubId, start: seq<Event>, base: Subscription, n: nat)
    requires IsRun(ss, ops) && |at| == |ops| && n <= |ops| && Follows(base, start, Find(ss[0], id), false)
    requires OddOnlyAfresh(ss, ops, at, id, n)
    ensures Follows(base, HistoryOf(ss, ops, at, id, start, n), Find(ss[n], id), Stale(ss, ops, at, id, n))
  {
    hide Next, Inv, Ready, Stored, LastChange, Follows, ProofFrom;
    if n > 0 {
      StoreFollowsHistory(ss, ops, at, id, start, base, n - 1);
      var before, row := HistoryOf(ss, ops, at, id, start, n - 1), Find(ss[n - 1], id);
      WriteKeepsRow(ss[n - 1], ops[n - 1], id);
      if id in ss[n].subs { SubscriptionStep(ss[n - 1], ops[n - 1], id); }
      if Writes(ss[n - 1], ops[n - 1], id) {
        WriteIsUpsert(ss[n - 1], ops[n - 1], id);
        FollowsWrite(base, before, row, Stale(ss, ops, at, id, n - 1), ops[n - 1].sub, at[n - 1]);
      } else {
        FollowsRest(base, before, row, Find(ss[n], id), Stale(ss, ops, at, id, n - 1));
      }
    }
  }

  /** A transaction that does not write id leaves its columns alone, or ends it. */
  lemma FollowsRest(
    base: Subscription, h: seq<Event>, row: Option<Subscription>, next: Option<Subscription>, stale: bool)
    requires Follows(base, h, row, stale)
    requires IsActive(next) ==> IsActive(row) && RotationColumns(next.value) == RotationColumns(row.value)
    ensures Follows(base, if IsActive(row) && !IsActive(next) then h + [Ended] else h, next, stale && IsActive(next))
  {
    hide Stored, LastChange;
  }

  lemma WriteKeepsRow(s: Store, op: Op, id: SubId)
    ensures Writes(s, op, id) ==> id in Next(s, op).subs
  {
  }

  lemma WriteIsUpsert(s: Store, op: Op, id: SubId)
    requires Writes(s, op, id)
    ensures op.DoUpsert? && op.id == id
  {
  }

  // ---- what signs a delivery ----

  /** The history says who signs, and the row agrees unless an odd write is still felt and its old
      secret has not run out. */
  lemma SignersFollow(base: Subscription, h: seq<Event>, row: Subscription, stale: bool, t: int)
    requires Follows(base, h, Some(row), stale) && row.active && ClockMonotone(h)
    requires forall e <- h :: e.Wrote? ==> e.at <= t
    ensures h != [] && h[|h| - 1].Wrote?
    ensures Signers(row, t) == Expected(h, t) <==>
      !stale || row.oldSecret.None? || row.oldSecretExpiresAt.None? || row.oldSecretExpiresAt.value <= t
  {
    hide Stored, LastChange, ClockMonotone;
    assert h[|h| - 1] in h;
    if !stale { SignersFollowHistory(base, h, t); }
  }

  /** An active subscription is signed with the secret last written and, exactly while less than 600
      seconds have passed since that secret replaced another, with the one it replaced, if and only if
      no odd write is still felt or the old secret it wrote is absent or has run out. */
  lemma StoredSigners(ss: seq<Store>, ops: seq<Op>, at: seq<int>, id: SubId, now: int, n: nat, t: int)
    requires IsRun(ss, ops) && |at| == |ops| && n <= |ops| && Active(ss[n], id) && OddOnlyAfresh(ss, ops, at, id, n)
    requires (Active(ss[0], id) ==> Shaped(ss[0].subs[id], now)) && now <= t
    requires forall i | 0 <= i < n && Writes(ss[i], ops[i], id) :: now <= at[i] <= t
    requires forall i, j | 0 <= i < j < n && Writes(ss[i], ops[i], id) && Writes(ss[j], ops[j], id) :: at[i] <= at[j]
    ensures var h := HistoryOf(ss, ops, at, id, FoundHistory(Find(ss[0], id), now), n);
      && h != [] && h[|h| - 1].Wrote?
      && var sub := ss[n].subs[id];
      (Signers(sub, t) == Expected(h, t) <==>
        || !Stale(ss, ops, at, id, n)
        || sub.oldSecret.None? || sub.oldSecretExpiresAt.None? || sub.oldSecretExpiresAt.value <= t)
  {
    hide Next, Inv, Ready, Expected, Stored, Follows, HistoryOf, Stale, Signers, ClockMonotone, OddOnlyAfresh, Writes,
      FoundHistory;
    var start, base := FoundHistory(Find(ss[0], id), now), ss[n].subs[id];
    FollowsFound(base, Find(ss[0], id), now);
    StoreFollowsHistory(ss, ops, at, id, start, base, n);
    HistoryTimes(ss, ops, at, id, start, n, t);
    HistoryInOrder(ss, ops, at, id, start, n, now);
    SignersFollow(base, HistoryOf(ss, ops, at, id, start, n), base, Stale(ss, ops, at, id, n), t);
  }

  lemma {:induction false} HistoryTimes(
    ss: seq<Store>, ops: seq<Op>, at: seq<int>, id: SubId, start: seq<Event>, n: nat, t: int)
    requires |ss| == |ops| + 1 && |at| == |ops| && n <= |ops| && forall e <- start :: e.Wrote? ==> e.at <= t
    requires forall i | 0 <= i < n && Writes(ss[i], ops[i], id) :: at[i] <= t
    ensures forall e <- HistoryOf(ss, ops, at, id, start, n) :: e.Wrote? ==> e.at <= t
  {
    if n > 0 { HistoryTimes(ss, ops, at, id, start, n - 1, t); }
  }

  /** When the writes of id read their clocks in order, so does the history. */
  lemma {:induction false} HistoryInOrder(
    ss: seq<Store>, ops: seq<Op>, at: seq<int>, id: SubId, start: seq<Event>, n: nat, now: int)
    requires |ss| == |ops| + 1 && |at| == |ops| && n <= |ops|
    requires ClockMonotone(start) && forall e <- start :: e.Wrote? ==> e.at <= now
    requires forall i | 0 <= i < n && Writes(ss[i], ops[i], id) :: now <= at[i]
    requires forall i, j | 0 <= i < j < n && Writes(ss[i], ops[i], id) && Writes(ss[j], ops[j], id) :: at[i] <= at[j]
    ensures ClockMonotone(HistoryOf(ss, ops, at, id, start, n))
  {
    hide Writes;
    if n > 0 {
      HistoryInOrder(ss, ops, at, id, start, n - 1, now);
      if Writes(ss[n - 1], ops[n - 1], id) { HistoryTimes(ss, ops, at, id, start, n - 1, at[n - 1]); }
    }
  }
}
