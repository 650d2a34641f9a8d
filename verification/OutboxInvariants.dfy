/** What every transaction of the outbox keeps, and what it can do to one row. */
module OutboxInvariants {
  import opened Wrappers
  import opened Outbox

  /** Foreign keys, and no row outliving its occurrence. */
  ghost predicate Linked(s: Store)
  {
    forall r <- s.rows ::
      && s.rows[r].occurrence in s.occs && s.rows[r].subscription in s.subs
      && s.rows[r].expiresAt <= s.occs[s.rows[r].occurrence].expiresAt
  }

  /** UNIQUE(event_id) and UNIQUE(occurrence_id, subscription_id). */
  ghost predicate Unique(s: Store)
  {
    && (forall o1, o2 | o1 in s.occs && o2 in s.occs && s.occs[o1].eventId == s.occs[o2].eventId :: o1 == o2)
    && (forall r1, r2 | r1 in s.rows && r2 in s.rows && s.rows[r1].occurrence == s.rows[r2].occurrence
          && s.rows[r1].subscription == s.rows[r2].subscription :: r1 == r2)
  }

  /** A row is leased exactly when it carries a token and a deadline, and it was then attempted. */
  predicate LeaseShape(row: Row)
  {
    && (row.status == Leased <==> row.leaseToken.Some?)
    && (row.leaseToken.Some? <==> row.leaseUntil.Some?)
    && (row.status == Leased ==> row.attempts >= 1)
  }

  /** Leases are well shaped, and no token is on two rows. */
  ghost predicate LeasesSound(s: Store)
  {
    && (forall r <- s.rows :: LeaseShape(s.rows[r]))
    && (forall r1, r2 | r1 in s.rows && r2 in s.rows && s.rows[r1].leaseToken.Some?
          && s.rows[r1].leaseToken == s.rows[r2].leaseToken :: r1 == r2)
  }

  /** Every id in the tables was drawn. */
  ghost predicate AllDrawn(s: Store)
  {
    && s.rows.Keys <= s.used && s.occs.Keys <= s.used
    && (forall r <- s.rows :: s.rows[r].leaseToken.Some? ==> s.rows[r].leaseToken.value in s.used)
  }

  ghost predicate Inv(s: Store) { Linked(s) && Unique(s) && LeasesSound(s) && AllDrawn(s) }

  lemma EmptyStoreInv()
    ensures Inv(EMPTY)
  {
  }

  // ---- claims select a unique row ----

  lemma NextRowUnique(s: Store, q: Query, r: Uuid)
    requires IsNext(s, q, r)
    ensures NextRow(s, q) == Some(r)
  {
    var other := NextRow(s, q).value;
    assert Before(s, r, other) && Before(s, other, r);
  }

  /** The earliest of a non-empty set of rows. */
  lemma {:induction false} EarliestExists(s: Store, rows: set<Uuid>) returns (first: Uuid)
    requires rows != {} && rows <= s.rows.Keys
    ensures first in rows && forall r <- rows :: Before(s, first, r)
  {
    var r :| r in rows;
    first := r;
    if rows != {r} {
      var rest := EarliestExists(s, rows - {r});
      if !Before(s, r, rest) { first := rest; }
      assert forall x <- rows :: x == r || x in rows - {r};
    }
  }

  /** A claim returns a row exactly when one is claimable, and then the earliest of them. */
  lemma ClaimTakesEarliest(s: Store, q: Query)
    ensures NextRow(s, q).Some? <==> exists r :: Claimable(s, q, r)
    ensures NextRow(s, q).Some? ==> IsNext(s, q, NextRow(s, q).value)
  {
    if r :| Claimable(s, q, r) {
      var candidates := set x | x in s.rows && Claimable(s, q, x);
      assert r in candidates;
      var first := EarliestExists(s, candidates);
      assert IsNext(s, q, first);
    }
  }

  // ---- every transaction keeps the invariant ----

  /** `t` is `s` with rows and occurrences removed and expiries lowered. */
  ghost predicate Trimmed(s: Store, t: Store)
  {
    && t.used == s.used
    && (forall o <- t.occs :: o in s.occs && t.occs[o] == s.occs[o])
    && (forall r <- t.rows ::
          && r in s.rows && t.rows[r] == s.rows[r].(expiresAt := t.rows[r].expiresAt)
          && t.rows[r].expiresAt <= s.rows[r].expiresAt
          && t.rows[r].occurrence in t.occs && t.rows[r].subscription in t.subs)
  }

  predicate Trims(op: Op) { !op.DoPublish? && !op.DoClaim? && !op.DoComplete? }

  lemma CancelTrims(s: Store, ids: set<SubId>, now: int)
    requires Linked(s)
    ensures Trimmed(s, CancelAll(s, ids, now))
  {
  }

  lemma CleanupTrims(s: Store, now: int)
    requires Linked(s)
    ensures Trimmed(s, Cleanup(s, now))
  {
  }

  lemma TrimmingOps(s: Store, op: Op)
    requires Linked(s) && Trims(op)
    ensures Trimmed(s, Next(s, op))
  {
    match op
    case DoCancel(id, _, now) => CancelTrims(s, {id}, now);
    case DoCancelKind(kind, now) => CancelTrims(s, OfKind(s, kind), now);
    case DoCleanup(now) => CleanupTrims(s, now);
    case _ =>
  }

  lemma TrimmedKeepsLinks(s: Store, t: Store)
    requires Linked(s) && AllDrawn(s) && Trimmed(s, t)
    ensures Linked(t) && AllDrawn(t)
  {
  }

  lemma TrimmedKeepsUnique(s: Store, t: Store)
    requires Unique(s) && Trimmed(s, t)
    ensures Unique(t)
  {
  }

  lemma TrimmedKeepsLeases(s: Store, t: Store)
    requires LeasesSound(s) && Trimmed(s, t)
    ensures LeasesSound(t)
  {
  }

  /** A fan-out only adds: the old rows are untouched and the new ones belong to the new occurrence. */
  ghost predicate Added(s: Store, t: Store, op: Op)
    requires op.DoPublish?
  {
    && op.occId !in s.occs && t.occs == s.occs[op.occId := op.occ] && t.subs == s.subs
    && t.used == s.used + {op.occId} + op.drawn.Keys
    && (forall o <- s.occs :: s.occs[o].eventId != op.occ.eventId)
    && (forall r <- s.rows :: r in t.rows && t.rows[r] == s.rows[r] && s.rows[r].occurrence != op.occId)
    && (forall r <- t.rows :: r in s.rows || (r in op.drawn && op.drawn[r] in s.subs
          && t.rows[r] == NewRow(op.occId, op.occ, op.drawn[r], op.payload, op.now)))
    && (forall r1, r2 | r1 in op.drawn && r2 in op.drawn && op.drawn[r1] == op.drawn[r2] :: r1 == r2)
  }

  lemma PublishAdds(s: Store, op: Op)
    requires Linked(s) && AllDrawn(s) && op.DoPublish? && FansOut(s, op.occ, op.eventType, op.now) && Ready(s, op)
    ensures Added(s, Next(s, op), op)
  {
  }

  lemma AddedKeepsLinks(s: Store, t: Store, op: Op)
    requires Linked(s) && AllDrawn(s) && op.DoPublish? && Added(s, t, op)
    ensures Linked(t) && AllDrawn(t)
  {
  }

  lemma AddedKeepsUnique(s: Store, t: Store, op: Op)
    requires Unique(s) && op.DoPublish? && Added(s, t, op)
    ensures Unique(t)
  {
    forall r1, r2 | r1 in t.rows && r2 in t.rows && t.rows[r1].occurrence == t.rows[r2].occurrence
      && t.rows[r1].subscription == t.rows[r2].subscription
      ensures r1 == r2
    {
      assert r1 in s.rows <==> r2 in s.rows;
    }
  }

  lemma AddedKeepsLeases(s: Store, t: Store, op: Op)
    requires LeasesSound(s) && op.DoPublish? && Added(s, t, op)
    ensures LeasesSound(t)
  {
  }

  /** `row` may replace row r: same links, no later expiry, and any token on it freshly drawn. */
  predicate Replaces(s: Store, r: Uuid, row: Row, used: set<Uuid>)
  {
    && r in s.rows && s.used <= used && LeaseShape(row)
    && row.occurrence == s.rows[r].occurrence && row.subscription == s.rows[r].subscription
    && row.expiresAt <= s.rows[r].expiresAt
    && (row.leaseToken.Some? ==> row.leaseToken.value in used - s.used)
  }

  lemma ReplaceKeepsLinks(s: Store, r: Uuid, row: Row, used: set<Uuid>)
    requires Linked(s) && AllDrawn(s) && Replaces(s, r, row, used)
    ensures var t := s.(rows := s.rows[r := row], used := used); Linked(t) && AllDrawn(t)
  {
  }

  lemma ReplaceKeepsUnique(s: Store, r: Uuid, row: Row, used: set<Uuid>)
    requires Unique(s) && Replaces(s, r, row, used)
    ensures Unique(s.(rows := s.rows[r := row], used := used))
  {
  }

  lemma ReplaceKeepsLeases(s: Store, r: Uuid, row: Row, used: set<Uuid>)
    requires LeasesSound(s) && AllDrawn(s) && Replaces(s, r, row, used)
    ensures LeasesSound(s.(rows := s.rows[r := row], used := used))
  {
  }

  lemma ReplaceKeepsInv(s: Store, r: Uuid, row: Row, used: set<Uuid>)
    requires Inv(s) && Replaces(s, r, row, used)
    ensures Inv(s.(rows := s.rows[r := row], used := used))
  {
    ReplaceKeepsLinks(s, r, row, used);
    ReplaceKeepsUnique(s, r, row, used);
    ReplaceKeepsLeases(s, r, row, used);
  }

  lemma ClaimKeepsInv(s: Store, q: Query)
    requires Inv(s) && q.token !in s.used
    ensures Inv(Claim(s, q))
  {
    ClaimTakesEarliest(s, q);
    match NextRow(s, q)
    case None =>
    case Some(r) => ReplaceKeepsInv(s, r, LeasedRow(s.rows[r], q), s.used + {q.token});
  }

  lemma CompleteKeepsInv(s: Store, op: Op)
    requires Inv(s) && op.DoComplete?
    ensures Inv(Next(s, op))
  {
    if Completes(s, op) {
      ReplaceKeepsInv(s, op.row, CompletedRow(s.rows[op.row], op.result, op.maxAttempts), s.used);
    }
  }

  lemma NextKeepsInv(s: Store, op: Op)
    requires Inv(s) && Ready(s, op)
    ensures Inv(Next(s, op))
  {
    if Trims(op) {
      TrimmingOps(s, op);
      TrimmedKeepsLinks(s, Next(s, op));
      TrimmedKeepsUnique(s, Next(s, op));
      TrimmedKeepsLeases(s, Next(s, op));
    } else if op.DoPublish? {
      if FansOut(s, op.occ, op.eventType, op.now) {
        PublishAdds(s, op);
        AddedKeepsLinks(s, Next(s, op), op);
        AddedKeepsUnique(s, Next(s, op), op);
        AddedKeepsLeases(s, Next(s, op), op);
      }
    } else if op.DoClaim? {
      ClaimKeepsInv(s, op.q);
    } else {
      CompleteKeepsInv(s, op);
    }
  }

  // ---- what a transaction can do to one row ----

  /** How row r got its present shape: new, leased, completed, or as before up to its expiry. */
  ghost predicate RowStep(s: Store, op: Op, t: Store, r: Uuid)
    requires r in t.rows
  {
    && (r !in s.rows ==>
          (r !in s.used && !Completes(s, op) && t.rows[r].attempts == 0 && t.rows[r].status == Pending
           && t.rows[r].leaseToken == None))
    && (Leases(s, op, r) ==> r in s.rows && !Terminal(s.rows[r].status) && t.rows[r] == LeasedRow(s.rows[r], op.q))
    && (Completes(s, op) && op.row == r ==> t.rows[r] == CompletedRow(s.rows[r], op.result, op.maxAttempts))
    && (r in s.rows && !Leases(s, op, r) && !(Completes(s, op) && op.row == r) ==>
          t.rows[r] == s.rows[r].(expiresAt := t.rows[r].expiresAt) && t.rows[r].expiresAt <= s.rows[r].expiresAt)
  }

  lemma TrimRowSteps(s: Store, op: Op, t: Store)
    requires Trims(op) && Trimmed(s, t)
    ensures forall r <- t.rows :: RowStep(s, op, t, r)
  {
  }

  lemma PublishRowSteps(s: Store, op: Op, t: Store)
    requires AllDrawn(s) && op.DoPublish? && op.drawn.Keys !! s.used && Added(s, t, op)
    ensures forall r <- t.rows :: RowStep(s, op, t, r)
  {
  }

  lemma ClaimRowSteps(s: Store, op: Op)
    requires op.DoClaim?
    ensures forall r <- Next(s, op).rows :: RowStep(s, op, Next(s, op), r)
  {
    ClaimTakesEarliest(s, op.q);
  }

  lemma RowSteps(s: Store, op: Op)
    requires Inv(s) && Ready(s, op)
    ensures s.used <= Next(s, op).used
    ensures forall r <- Next(s, op).rows :: RowStep(s, op, Next(s, op), r)
  {
    hide RowStep, Unique, LeasesSound;
    if Trims(op) {
      TrimmingOps(s, op);
      TrimRowSteps(s, op, Next(s, op));
    } else if op.DoClaim? {
      ClaimRowSteps(s, op);
    } else if op.DoComplete? {
      CompleteRowSteps(s, op);
    } else if FansOut(s, op.occ, op.eventType, op.now) {
      PublishAdds(s, op);
      PublishRowSteps(s, op, Next(s, op));
    } else {
      UnchangedRowSteps(s, op);
    }
  }

  lemma CompleteRowSteps(s: Store, op: Op)
    requires op.DoComplete?
    ensures forall r <- Next(s, op).rows :: RowStep(s, op, Next(s, op), r)
  {
  }

  lemma UnchangedRowSteps(s: Store, op: Op)
    requires op.DoPublish?
    ensures forall r <- s.rows :: RowStep(s, op, s, r)
  {
  }

  /** Two versions of a row: identity is fixed, expiry only falls, attempts only grow. */
  predicate Later(before: Row, after: Row)
  {
    && after.occurrence == before.occurrence && after.subscription == before.subscription
    && after.payload == before.payload && after.createdAt == before.createdAt
    && after.expiresAt <= before.expiresAt && after.attempts >= before.attempts
    && (Terminal(before.status) ==> after.status == before.status && after.attempts == before.attempts)
  }

  lemma RowEvolves(s: Store, op: Op, r: Uuid)
    requires Inv(s) && Ready(s, op) && r in s.rows && r in Next(s, op).rows
    ensures Later(s.rows[r], Next(s, op).rows[r])
    ensures !Leases(s, op, r) && !(Completes(s, op) && op.row == r) ==>
      Next(s, op).rows[r] == s.rows[r].(expiresAt := Next(s, op).rows[r].expiresAt)
  {
    hide Next, Inv, Ready, Leases;
    RowSteps(s, op);
  }

  /** Ids are never reused, so a deleted row stays deleted. */
  lemma DeletedStaysDeleted(s: Store, op: Op, r: Uuid)
    requires Inv(s) && Ready(s, op) && r in s.used && r !in s.rows
    ensures r in Next(s, op).used && r !in Next(s, op).rows
  {
    hide Next, Inv, Ready, Leases;
    RowSteps(s, op);
  }

  /** A token that was drawn and is on no row is never put on one again. */
  ghost predicate Dead(s: Store, token: Uuid)
  {
    token in s.used && forall r <- s.rows :: s.rows[r].leaseToken != Some(token)
  }

  lemma DeadStaysDead(s: Store, op: Op, token: Uuid)
    requires Inv(s) && Ready(s, op) && Dead(s, token)
    ensures Dead(Next(s, op), token)
  {
    hide Next, Inv;
    RowSteps(s, op);
  }

  /** A stored id is rewritten only for its owner and agent, and switched off or cancelled only for its
      owner: any other attempt leaves the tables as they are. */
  lemma WritesAreGuarded(s: Store, id: SubId, sub: Subscription, owner: string, now: int)
    ensures Upsert(s, id, sub) ==
      if id in s.subs && (s.subs[id].owner != sub.owner || s.subs[id].target != sub.target) then s
      else s.(subs := s.subs[id := sub])
    ensures id !in s.subs || s.subs[id].owner != owner ==>
      Deactivate(s, id, owner) == s && Cancel(s, id, owner, now) == s
  {
  }
}
