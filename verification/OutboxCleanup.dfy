/** Sweeping expired rows is invisible to every later claim. */
module OutboxCleanup {
  import opened Wrappers
  import opened Outbox
  import opened OutboxInvariants

  lemma CleanupKeepsCandidates(s: Store, now: int, q: Query, r: Uuid)
    requires Linked(s) && now <= q.now
    ensures Claimable(Cleanup(s, now), q, r) <==> Claimable(s, q, r)
  {
  }

  lemma CleanupKeepsSelection(s: Store, now: int, q: Query)
    requires Linked(s) && now <= q.now
    ensures NextRow(Cleanup(s, now), q) == NextRow(s, q)
  {
    var t := Cleanup(s, now);
    forall r ensures Claimable(t, q, r) <==> Claimable(s, q, r) { CleanupKeepsCandidates(s, now, q, r); }
    ClaimTakesEarliest(s, q);
    ClaimTakesEarliest(t, q);
    hide Claimable, Linked;
    if NextRow(s, q).Some? {
      assert IsNext(t, q, NextRow(s, q).value);
      NextRowUnique(t, q, NextRow(s, q).value);
    }
  }

  lemma CleanupKeepsItem(s: Store, now: int, q: Query, r: Uuid)
    requires Claimable(s, q, r) && Claimable(Cleanup(s, now), q, r)
    ensures ItemOf(Cleanup(s, now), q, r) == ItemOf(s, q, r)
    ensures Cleanup(s, now).rows[r] == s.rows[r]
  {
  }

  /** A claim at or after a cleanup returns exactly what it would have returned without it, and
      cleaning up before or after the claim leaves the same tables. */
  lemma CleanupInvisibleToClaims(s: Store, now: int, q: Query)
    requires Inv(s) && now <= q.now
    ensures Claimed(Cleanup(s, now), q) == Claimed(s, q)
    ensures Claim(Cleanup(s, now), q) == Cleanup(Claim(s, q), now)
  {
    hide NextRow, Linked, Unique, LeasesSound, AllDrawn, Claimable;
    CleanupKeepsSelection(s, now, q);
    ClaimTakesEarliest(s, q);
    if NextRow(s, q).Some? {
      var r := NextRow(s, q).value;
      CleanupKeepsCandidates(s, now, q, r);
      CleanupKeepsItem(s, now, q, r);
      CleanupCommutesWithLease(s, now, q, r);
    }
  }

  lemma CleanupCommutesWithLease(s: Store, now: int, q: Query, r: Uuid)
    requires Inv(s) && now <= q.now && Claimable(s, q, r)
    ensures var rows := s.rows[r := LeasedRow(s.rows[r], q)];
      Cleanup(s.(rows := rows, used := s.used + {q.token}), now).rows == Cleanup(s, now).rows[r := rows[r]]
  {
  }

  /** Deleting an occurrence never takes an unexpired row with it. */
  lemma OccurrenceDeletionSparesLiveRows(s: Store, now: int, r: Uuid)
    requires Inv(s) && r in s.rows && s.rows[r].expiresAt > now
    ensures s.rows[r].occurrence in Cleanup(s, now).occs
    ensures r in Cleanup(s, now).rows <==> s.rows[r].subscription in Cleanup(s, now).subs
  {
  }

  /** A sweep deletes exactly what has expired, and the rows whose occurrence or subscription has. */
  lemma CleanupDeletesExactlyExpired(s: Store, now: int)
    requires Inv(s)
    ensures var t := Cleanup(s, now);
      && t.used == s.used
      && (forall id :: id in t.subs <==>
            id in s.subs && (s.subs[id].expiresAt.Some? ==> s.subs[id].expiresAt.value > now))
      && (forall o :: o in t.occs <==> o in s.occs && s.occs[o].expiresAt > now)
      && (forall r :: r in t.rows <==>
            r in s.rows && s.rows[r].expiresAt > now && s.rows[r].subscription in t.subs)
      && (forall id <- t.subs :: t.subs[id] == s.subs[id]) && (forall o <- t.occs :: t.occs[o] == s.occs[o])
      && (forall r <- t.rows :: t.rows[r] == s.rows[r])
  {
    hide Unique, LeasesSound, AllDrawn;
  }

  /** Once its occurrence has expired and been swept, an event can be published again. */
  lemma SweptEventFansOutAgain(s: Store, now: int, o: Uuid, occ: Occurrence, eventType: string, later: int)
    requires Inv(s) && o in s.occs && s.occs[o].expiresAt <= now && occ.eventId == s.occs[o].eventId
    ensures FansOut(Cleanup(s, now), occ, eventType, later) <==>
      exists id :: id in Cleanup(s, now).subs && Matches(Cleanup(s, now).subs[id], occ.owner, eventType, later)
  {
    hide Matches, Linked, LeasesSound, AllDrawn;
    var t := Cleanup(s, now);
    assert !HasEvent(t, occ.eventId);
    if id :| id in t.subs && Matches(t.subs[id], occ.owner, eventType, later) {
      assert id in Matching(t, occ.owner, eventType, later);
    }
  }
}
