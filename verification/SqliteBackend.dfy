/** The SQLite backend: three mutable tables, one method per transaction. */
module SqliteBackend {
  import opened Wrappers
  import opened Outbox
  import opened OutboxInvariants

  predicate Distinct(uuids: seq<Uuid>) { forall i, j | 0 <= i < j < |uuids| :: uuids[i] != uuids[j] }

  lemma PublishIdle(s: Store, op: Op)
    requires op.DoPublish? && !FansOut(s, op.occ, op.eventType, op.now)
    ensures Ready(s, op) && Next(s, op) == s
  {
  }

  /** The drawn row ids make the publish a legal transaction with the expected outcome. */
  lemma PublishTransaction(s: Store, op: Op, added: map<Uuid, Row>)
    requires op.DoPublish? && FansOut(s, op.occ, op.eventType, op.now)
    requires Assigns(s, op.occId, op.drawn, Matching(s, op.occ.owner, op.eventType, op.now))
    requires added == map r | r in op.drawn :: NewRow(op.occId, op.occ, op.drawn[r], op.payload, op.now)
    ensures Ready(s, op)
    ensures Next(s, op) == Store(s.subs, s.occs[op.occId := op.occ], s.rows + added,
      s.used + {op.occId} + op.drawn.Keys)
  {
    hide Assigns, NewRow, FansOut, Matching;
  }

  class Backend {
    var subs: map<SubId, Subscription>
    var occs: map<Uuid, Occurrence>
    var rows: map<Uuid, Row>
    /** UUIDs drawn so far; the source relies on them never repeating. */
    var used: set<Uuid>

    function State(): Store
      reads this
    {
      Store(subs, occs, rows, used)
    }

    constructor ()
      ensures State() == EMPTY && Inv(State())
    {
      subs, occs, rows, used := map[], map[], map[], {};
      new;
      EmptyStoreInv();
    }

    method UpsertSubscription(id: SubId, sub: Subscription) returns (ok: bool)
      requires Inv(State())
      modifies this
      ensures Inv(State())
      ensures State() == Next(old(State()), DoUpsert(id, sub))
      ensures ok <==> UpsertAllowed(old(State()), id, sub)
    {
      hide Inv;
      NextKeepsInv(State(), DoUpsert(id, sub));
      if id !in subs {
        subs := subs[id := sub];
        return true;
      }
      if subs[id].owner == sub.owner && subs[id].target == sub.target {
        subs := subs[id := sub];
        return true;
      }
      return false;
    }

    method GetSubscription(id: SubId) returns (found: Option<Subscription>)
      ensures found.Some? <==> id in subs
      ensures found.Some? ==> found.value == subs[id]
    {
      found := if id in subs then Some(subs[id]) else None;
    }

    method DeactivateSubscription(id: SubId, owner: string)
      requires Inv(State())
      modifies this
      ensures Inv(State())
      ensures State() == Next(old(State()), DoDeactivate(id, owner))
    {
      hide Inv;
      NextKeepsInv(State(), DoDeactivate(id, owner));
      if id in subs && subs[id].owner == owner {
        subs := subs[id := subs[id].(active := false)];
      }
    }

    method RevokeCredentialsExcept(owner: string, fingerprint: string) returns (changed: nat)
      requires Inv(State())
      modifies this
      ensures Inv(State())
      ensures State() == Next(old(State()), DoRevokeExcept(owner, fingerprint))
      ensures changed == |Revoked(old(State()), owner, fingerprint)| && OnlyUnder(State(), owner, fingerprint)
    {
      hide Inv, Next, RevokedBy, OnlyUnder;
      NextKeepsInv(State(), DoRevokeExcept(owner, fingerprint));
      RevokeLeavesOnlyFingerprint(State(), owner, fingerprint);
      var hit := set id | id in subs && RevokedBy(subs[id], owner, fingerprint);
      subs := map id | id in subs ::
        if RevokedBy(subs[id], owner, fingerprint) then subs[id].(active := false) else subs[id];
      changed := |hit|;
    }

    /** The ids the cache is filled from. */
    method ActiveSubscriptions(owner: string, now: int) returns (live: map<SubId, Subscription>)
      ensures forall id :: id in live <==> id in subs && Live(subs[id], owner, now)
      ensures forall id <- live :: live[id] == subs[id]
    {
      live := map id | id in subs && Live(subs[id], owner, now) :: subs[id];
    }

    /** One transaction: select the matching subscriptions, insert the occurrence unless its event
        id is known, then insert one row per subscription with the next fresh id. */
    method Publish(occId: Uuid, occ: Occurrence, payload: Bytes, eventType: string, now: int,
                   uuids: seq<Uuid>) returns (drawn: map<Uuid, SubId>)
      requires Inv(State())
      requires occId !in used && occId !in uuids && Distinct(uuids) && forall u <- uuids :: u !in used
      requires |uuids| >= |Matching(State(), occ.owner, eventType, now)|
      modifies this
      ensures Ready(old(State()), DoPublish(occId, occ, payload, eventType, now, drawn))
      ensures State() == Next(old(State()), DoPublish(occId, occ, payload, eventType, now, drawn))
      ensures Inv(State())
    {
      hide Inv, Matches, NewRow, Distinct, Next, Ready;
      ghost var s := State();
      var matching := set id | id in subs && Matches(subs[id], occ.owner, eventType, now);
      assert matching == Matching(s, occ.owner, eventType, now);
      drawn := map[];
      if matching == {} || exists o :: o in occs && occs[o].eventId == occ.eventId {
        PublishIdle(s, DoPublish(occId, occ, payload, eventType, now, drawn));
        return;
      }
      var added;
      drawn, added := DrawRows(matching, occId, occ, payload, now, uuids);
      occs := occs[occId := occ];
      rows := rows + added;
      used := used + {occId} + drawn.Keys;
      assert Assigns(s, occId, drawn, matching);
      ghost var op := DoPublish(occId, occ, payload, eventType, now, drawn);
      PublishTransaction(s, op, added);
      NextKeepsInv(s, op);
    }

    static method DrawRows(matching: set<SubId>, occId: Uuid, occ: Occurrence, payload: Bytes, now: int,
                           uuids: seq<Uuid>) returns (drawn: map<Uuid, SubId>, added: map<Uuid, Row>)
      requires Distinct(uuids) && |uuids| >= |matching|
      ensures forall r <- drawn :: r in uuids && drawn[r] in matching
      ensures forall id <- matching :: exists r :: r in drawn && drawn[r] == id
      ensures forall r1, r2 | r1 in drawn && r2 in drawn && drawn[r1] == drawn[r2] :: r1 == r2
      ensures added == map r | r in drawn :: NewRow(occId, occ, drawn[r], payload, now)
    {
      hide NewRow;
      drawn, added := map[], map[];
      var todo, i := matching, 0;
      ghost var rowOf: map<SubId, Uuid> := map[];
      while todo != {}
        invariant todo <= matching && i + |todo| == |matching| && rowOf.Keys == matching - todo
        invariant forall id <- rowOf :: rowOf[id] in drawn && drawn[rowOf[id]] == id
        invariant forall r <- drawn :: r in uuids[..i] && drawn[r] in rowOf && rowOf[drawn[r]] == r
        invariant added == map r | r in drawn :: NewRow(occId, occ, drawn[r], payload, now)
        decreases |todo|
      {
        var id :| id in todo;
        assert uuids[i] !in uuids[..i];
        assert uuids[..i + 1] == uuids[..i] + [uuids[i]];
        drawn, rowOf := drawn[uuids[i] := id], rowOf[id := uuids[i]];
        added := added[uuids[i] := NewRow(occId, occ, id, payload, now)];
        todo, i := todo - {id}, i + 1;
      }
      assert forall id <- matching :: rowOf[id] in drawn && drawn[rowOf[id]] == id;
    }

    /** Leases the earliest claimable row, if there is one. */
    method ClaimOutbox(q: Query) returns (item: Option<Item>)
      requires Inv(State()) && q.token !in used
      modifies this
      ensures State() == Next(old(State()), DoClaim(q)) && item == Claimed(old(State()), q)
      ensures Inv(State())
    {
      hide Inv, NextRow;
      ghost var s := State();
      NextKeepsInv(s, DoClaim(q));
      ClaimTakesEarliest(s, q);
      var candidates := set r | r in rows && Claimable(State(), q, r);
      if candidates == {} {
        assert forall r :: Claimable(s, q, r) ==> r in candidates;
        used := used + {q.token};
        return None;
      }
      ghost var any :| any in candidates;
      assert Claimable(s, q, any) && NextRow(s, q).value in candidates;
      var r :| r in candidates && forall other <- candidates :: Before(State(), r, other);
      assert forall x | Claimable(s, q, x) :: x in candidates;
      assert IsNext(s, q, r);
      NextRowUnique(s, q, r);
      var row := rows[r];
      item := Some(Item(r, row.occurrence, occs[row.occurrence].eventId, row.payload, row.attempts + 1,
                        q.token, row.subscription, subs[row.subscription]));
      rows := rows[r := LeasedRow(row, q)];
      used := used + {q.token};
    }

    method CancelSubscription(id: SubId, owner: string, now: int)
      requires Inv(State())
      modifies this
      ensures Inv(State())
      ensures State() == Next(old(State()), DoCancel(id, owner, now))
    {
      hide Inv;
      NextKeepsInv(State(), DoCancel(id, owner, now));
      CancelInTransaction(id, owner, now);
    }

    method CancelInTransaction(id: SubId, owner: string, now: int)
      modifies this
      ensures State() == Cancel(old(State()), id, owner, now)
    {
      if id in subs && subs[id].owner == owner {
        ghost var s := State();
        subs := subs[id := subs[id].(active := false)];
        rows := map r | r in rows ::
          if rows[r].subscription == id then rows[r].(expiresAt := Min(rows[r].expiresAt, now)) else rows[r];
        assert subs == CancelAll(s, {id}, now).subs;
        assert rows == CancelAll(s, {id}, now).rows;
      }
    }

    /** Cancels every subscription of one source kind, one by one inside one transaction. */
    method CancelSubscriptionsBySourceKind(kind: SourceKind, now: int) returns (ids: set<SubId>)
      requires Inv(State())
      modifies this
      ensures Inv(State()) && ids == OfKind(old(State()), kind)
      ensures State() == Next(old(State()), DoCancelKind(kind, now))
    {
      hide Inv;
      ghost var s := State();
      NextKeepsInv(s, DoCancelKind(kind, now));
      ids := set id | id in subs && subs[id].kind == kind;
      var owners := map id | id in ids :: subs[id].owner;
      assert ids == OfKind(s, kind);
      CancelEach(ids, owners, now);
    }

    method CancelEach(ids: set<SubId>, owners: map<SubId, string>, now: int)
      requires forall id <- ids :: id in subs && id in owners && owners[id] == subs[id].owner
      modifies this
      ensures State() == CancelAll(old(State()), ids, now)
    {
      hide CancelAll, Cancel;
      ghost var s := State();
      var todo := ids;
      CancelNone(s, now);
      assert ids - todo == {};
      while todo != {}
        invariant todo <= ids && State() == CancelAll(s, ids - todo, now)
        decreases |todo|
      {
        var id :| id in todo;
        CancelInTransaction(id, owners[id], now);
        CancelOneMore(s, ids - todo, id, now);
        assert ids - todo + {id} == ids - (todo - {id});
        todo := todo - {id};
      }
      assert ids - todo == ids;
    }

    method CompleteDelivery(r: Uuid, token: Uuid, result: DeliveryResult, maxAttempts: int) returns (ok: bool)
      requires Inv(State())
      modifies this
      ensures Inv(State())
      ensures State() == Next(old(State()), DoComplete(r, token, result, maxAttempts))
      ensures ok <==> HoldsLease(old(State()), r, token)
    {
      hide Inv;
      NextKeepsInv(State(), DoComplete(r, token, result, maxAttempts));
      if r !in rows || rows[r].leaseToken != Some(token) || rows[r].status != Leased { return false; }
      rows := rows[r := CompletedRow(rows[r], result, maxAttempts)];
      return true;
    }

    /** Three deletes; the last two cascade into the outbox. */
    method DeleteExpired(now: int)
      requires Inv(State())
      modifies this
      ensures Inv(State())
      ensures State() == Next(old(State()), DoCleanup(now))
    {
      hide Linked, Unique, LeasesSound, AllDrawn, Cleanup, LiveRows, LiveOccurrences, CascadeOccurrences,
        LiveSubscriptions, CascadeSubscriptions;
      ghost var s := State();
      NextKeepsInv(s, DoCleanup(now));
      rows := LiveRows(rows, now);
      occs := LiveOccurrences(occs, now);
      rows := CascadeOccurrences(rows, occs);
      subs := LiveSubscriptions(subs, now);
      rows := CascadeSubscriptions(rows, subs);
      CascadeIsCleanup(s, now);
    }
  }

  function Revoked(s: Store, owner: string, fingerprint: string): set<SubId>
  {
    set id | id in s.subs && RevokedBy(s.subs[id], owner, fingerprint)
  }

  /** Whatever the owner has active is under the given credential. */
  predicate OnlyUnder(s: Store, owner: string, fingerprint: string)
  {
    forall id <- s.subs :: s.subs[id].owner == owner && s.subs[id].active ==> s.subs[id].fingerprint == fingerprint
  }

  lemma RevokeLeavesOnlyFingerprint(s: Store, owner: string, fingerprint: string)
    ensures var t := Next(s, DoRevokeExcept(owner, fingerprint));
      && t == s.(subs := map id | id in s.subs ::
           if RevokedBy(s.subs[id], owner, fingerprint) then s.subs[id].(active := false) else s.subs[id])
      && OnlyUnder(t, owner, fingerprint)
  {
  }

  lemma CancelNone(s: Store, now: int)
    ensures CancelAll(s, {}, now) == s
  {
    assert CancelAll(s, {}, now).subs == s.subs;
    assert CancelAll(s, {}, now).rows == s.rows;
  }

  function LiveRows(rows: map<Uuid, Row>, now: int): map<Uuid, Row>
  {
    map r | r in rows && rows[r].expiresAt > now :: rows[r]
  }

  function LiveOccurrences(occs: map<Uuid, Occurrence>, now: int): map<Uuid, Occurrence>
  {
    map o | o in occs && occs[o].expiresAt > now :: occs[o]
  }

  function LiveSubscriptions(subs: map<SubId, Subscription>, now: int): map<SubId, Subscription>
  {
    map id | id in subs && Unexpired(subs[id].expiresAt, now) :: subs[id]
  }

  /** ON DELETE CASCADE from the occurrences. */
  function CascadeOccurrences(rows: map<Uuid, Row>, occs: map<Uuid, Occurrence>): map<Uuid, Row>
  {
    map r | r in rows && rows[r].occurrence in occs :: rows[r]
  }

  /** ON DELETE CASCADE from the subscriptions. */
  function CascadeSubscriptions(rows: map<Uuid, Row>, subs: map<SubId, Subscription>): map<Uuid, Row>
  {
    map r | r in rows && rows[r].subscription in subs :: rows[r]
  }

  /** Three deletes with their cascades leave the rows that keep all three of their parts. */
  lemma CascadeIsCleanup(s: Store, now: int)
    requires Linked(s)
    ensures
      var occs, subs := LiveOccurrences(s.occs, now), LiveSubscriptions(s.subs, now);
      var rows := CascadeSubscriptions(CascadeOccurrences(LiveRows(s.rows, now), occs), subs);
      Store(subs, occs, rows, s.used) == Cleanup(s, now)
  {
  }

  /** Cancelling one more subscription extends the cancelled set. */
  lemma CancelOneMore(s: Store, ids: set<SubId>, id: SubId, now: int)
    requires id in s.subs
    ensures Cancel(CancelAll(s, ids, now), id, s.subs[id].owner, now) == CancelAll(s, ids + {id}, now)
  {
    var t := Cancel(CancelAll(s, ids, now), id, s.subs[id].owner, now);
    var u := CancelAll(s, ids + {id}, now);
    assert t.subs == u.subs;
    assert t.rows == u.rows;
  }
}
