/**
 The encryption boundary. Callback data and payloads are sealed before they reach the backend, with
 the id of the subscription or occurrence they belong to as associated data, and opened on the way
 out. The encrypted tables behave as a plaintext outbox would.
 */
module EventStore {
  import opened Wrappers
  import opened Outbox
  import opened OutboxInvariants
  import opened OutboxRuns
  import opened OutboxHistory
  import opened SqliteBackend

  datatype Aad = OfSub(id: SubId) | OfOcc(uuid: Uuid)

  type Nonce = nat

  datatype Cipher = Cipher(seal: (Aad, Bytes, Nonce) -> Bytes, open: (Aad, Bytes) -> Option<Bytes>)

  /** Opening succeeds under the associated data used for sealing, and only then. */
  ghost predicate Sound(c: Cipher)
  {
    forall aad, plain, nonce, other ::
      c.open(other, c.seal(aad, plain, nonce)) == if other == aad then Some(plain) else None
  }

  // ---- how encrypted tables correspond to plaintext ones ----

  predicate SealedOption(c: Cipher, aad: Aad, sealed: Option<Bytes>, plain: Option<Bytes>)
  {
    match (sealed, plain)
    case (None, None) => true
    case (Some(s), Some(p)) => c.open(aad, s) == Some(p)
    case _ => false
  }

  predicate SealedSub(c: Cipher, id: SubId, sealed: Subscription, plain: Subscription)
  {
    && sealed == plain.(url := sealed.url, secret := sealed.secret, oldSecret := sealed.oldSecret,
                        arguments := sealed.arguments)
    && c.open(OfSub(id), sealed.url) == Some(plain.url)
    && c.open(OfSub(id), sealed.secret) == Some(plain.secret)
    && SealedOption(c, OfSub(id), sealed.oldSecret, plain.oldSecret)
  }

  predicate SealedRow(c: Cipher, sealed: Row, plain: Row)
  {
    && sealed == plain.(payload := sealed.payload)
    && c.open(OfOcc(plain.occurrence), sealed.payload) == Some(plain.payload)
  }

  ghost predicate SealedSubs(c: Cipher, e: map<SubId, Subscription>, p: map<SubId, Subscription>)
  {
    e.Keys == p.Keys && forall id <- p :: SealedSub(c, id, e[id], p[id])
  }

  ghost predicate SealedRows(c: Cipher, e: map<Uuid, Row>, p: map<Uuid, Row>)
  {
    e.Keys == p.Keys && forall r <- p :: SealedRow(c, e[r], p[r])
  }

  ghost predicate Sealed(c: Cipher, e: Store, p: Store)
  {
    e.occs == p.occs && e.used == p.used && SealedSubs(c, e.subs, p.subs) && SealedRows(c, e.rows, p.rows)
  }

  /** The same transaction on sealed and on plaintext data. */
  predicate SealedOp(c: Cipher, sealed: Op, plain: Op)
  {
    if sealed.DoUpsert? && plain.DoUpsert? then
      sealed.id == plain.id && SealedSub(c, plain.id, sealed.sub, plain.sub)
    else if sealed.DoPublish? && plain.DoPublish? then
      sealed == plain.(payload := sealed.payload) && c.open(OfOcc(plain.occId), sealed.payload) == Some(plain.payload)
    else sealed == plain
  }

  lemma SealedSelection(c: Cipher, e: Store, p: Store, q: Query)
    requires Sealed(c, e, p)
    ensures NextRow(e, q) == NextRow(p, q)
  {
    assert forall r :: Claimable(e, q, r) <==> Claimable(p, q, r);
    ClaimTakesEarliest(e, q);
    ClaimTakesEarliest(p, q);
    if NextRow(p, q).Some? {
      hide Claimable, NextRow;
      assert IsNext(e, q, NextRow(p, q).value);
      NextRowUnique(e, q, NextRow(p, q).value);
    }
  }

  lemma SealedMatching(c: Cipher, e: Store, p: Store, owner: string, eventType: string, now: int)
    requires Sealed(c, e, p)
    ensures e.used == p.used && Matching(e, owner, eventType, now) == Matching(p, owner, eventType, now)
  {
  }

  lemma SealedReady(c: Cipher, e: Store, p: Store, sealed: Op, plain: Op)
    requires Sealed(c, e, p) && SealedOp(c, sealed, plain)
    ensures Ready(e, sealed) <==> Ready(p, plain)
  {
    hide SealedSubs, SealedRows, Matching;
    if sealed.DoPublish? { SealedMatching(c, e, p, sealed.occ.owner, sealed.eventType, sealed.now); }
  }

  lemma SealedUpsert(c: Cipher, e: Store, p: Store, id: SubId, sealed: Subscription, plain: Subscription)
    requires Sealed(c, e, p) && SealedSub(c, id, sealed, plain)
    ensures Sealed(c, Upsert(e, id, sealed), Upsert(p, id, plain))
  {
    hide SealedRows, SealedOption;
    SealedUpsertAllowed(c, e, p, id, sealed, plain);
  }

  lemma SealedDeactivate(c: Cipher, e: Store, p: Store, id: SubId, owner: string)
    requires Sealed(c, e, p)
    ensures Sealed(c, Deactivate(e, id, owner), Deactivate(p, id, owner))
  {
    hide SealedRows, SealedOption;
    SealedOwns(c, e, p, id, owner);
  }

  lemma SealedRevoke(c: Cipher, e: Store, p: Store, owner: string, fingerprint: string)
    requires Sealed(c, e, p)
    ensures Sealed(c, RevokeExcept(e, owner, fingerprint), RevokeExcept(p, owner, fingerprint))
  {
    hide SealedRows, SealedOption;
  }

  lemma SealedPublish(c: Cipher, e: Store, p: Store, sealed: Op, plain: Op)
    requires Sealed(c, e, p) && SealedOp(c, sealed, plain) && sealed.DoPublish?
    ensures Sealed(c, Next(e, sealed), Next(p, plain))
  {
    hide SealedSubs, Matching, SealedRows;
    SealedMatching(c, e, p, sealed.occ.owner, sealed.eventType, sealed.now);
    SealedNewRows(c, e.rows, p.rows, sealed, plain);
  }

  lemma SealedNewRows(c: Cipher, e: map<Uuid, Row>, p: map<Uuid, Row>, sealed: Op, plain: Op)
    requires SealedRows(c, e, p) && SealedOp(c, sealed, plain) && sealed.DoPublish?
    ensures SealedRows(c,
              e + map r | r in sealed.drawn ::
                NewRow(sealed.occId, sealed.occ, sealed.drawn[r], sealed.payload, sealed.now),
              p + map r | r in plain.drawn :: NewRow(plain.occId, plain.occ, plain.drawn[r], plain.payload, plain.now))
  {
  }

  lemma SealedClaim(c: Cipher, e: Store, p: Store, q: Query)
    requires Sealed(c, e, p)
    ensures Sealed(c, Claim(e, q), Claim(p, q))
  {
    hide SealedSubs, Claimable, NextRow;
    SealedSelection(c, e, p, q);
    ClaimTakesEarliest(p, q);
    if NextRow(p, q).Some? { InTable(p, q, NextRow(p, q).value); }
  }

  lemma InTable(s: Store, q: Query, r: Uuid)
    requires Claimable(s, q, r)
    ensures r in s.rows
  {
  }

  lemma SealedComplete(c: Cipher, e: Store, p: Store, op: Op)
    requires Sealed(c, e, p) && op.DoComplete?
    ensures Sealed(c, Next(e, op), Next(p, op))
  {
    hide SealedSubs;
  }

  lemma SealedCancel(c: Cipher, e: Store, p: Store, ids: set<SubId>, now: int)
    requires Sealed(c, e, p)
    ensures Sealed(c, CancelAll(e, ids, now), CancelAll(p, ids, now))
  {
    assert SealedSubs(c, CancelAll(e, ids, now).subs, CancelAll(p, ids, now).subs);
    assert SealedRows(c, CancelAll(e, ids, now).rows, CancelAll(p, ids, now).rows);
  }

  lemma SealedRowKept(c: Cipher, e: Store, p: Store, now: int, r: Uuid)
    requires Sealed(c, e, p) && r in p.rows
    ensures r in e.rows && (RowKept(e, e.rows[r], now) <==> RowKept(p, p.rows[r], now))
  {
    assert SealedRow(c, e.rows[r], p.rows[r]);
    var id := p.rows[r].subscription;
    if id in p.subs { assert SealedSub(c, id, e.subs[id], p.subs[id]); }
  }

  lemma SealedCleanup(c: Cipher, e: Store, p: Store, now: int)
    requires Sealed(c, e, p)
    ensures Sealed(c, Cleanup(e, now), Cleanup(p, now))
  {
    hide RowKept, SealedRow, SealedSub;
    forall r | r in p.rows ensures RowKept(e, e.rows[r], now) <==> RowKept(p, p.rows[r], now) {
      SealedRowKept(c, e, p, now, r);
    }
    assert Cleanup(e, now).rows.Keys == Cleanup(p, now).rows.Keys;
    forall id | id in p.subs ensures SubKept(e.subs[id], now) <==> SubKept(p.subs[id], now) {
      SealedExpiry(c, id, e.subs[id], p.subs[id]);
    }
    assert Cleanup(e, now).subs.Keys == Cleanup(p, now).subs.Keys;
  }

  lemma SealedExpiry(c: Cipher, id: SubId, sealed: Subscription, plain: Subscription)
    requires SealedSub(c, id, sealed, plain)
    ensures sealed.expiresAt == plain.expiresAt
  {
  }

  lemma SealedKind(c: Cipher, e: Store, p: Store, kind: SourceKind)
    requires Sealed(c, e, p)
    ensures OfKind(e, kind) == OfKind(p, kind)
  {
  }

  /** Every transaction keeps the two in step. */
  lemma SealedNext(c: Cipher, e: Store, p: Store, sealed: Op, plain: Op)
    requires Sealed(c, e, p) && SealedOp(c, sealed, plain)
    ensures Sealed(c, Next(e, sealed), Next(p, plain))
  {
    hide SealedSubs, SealedRows, OfKind, CancelAll, Cleanup, Claim, Upsert, Deactivate, RevokeExcept;
    match sealed
    case DoPublish(_, _, _, _, _, _) => SealedPublish(c, e, p, sealed, plain);
    case DoClaim(q) => SealedClaim(c, e, p, q);
    case DoComplete(_, _, _, _) => SealedComplete(c, e, p, sealed);
    case DoCancel(id, owner, now) =>
      SealedOwns(c, e, p, id, owner);
      SealedCancel(c, e, p, {id}, now);
    case DoCancelKind(kind, now) =>
      SealedKind(c, e, p, kind);
      SealedCancel(c, e, p, OfKind(p, kind), now);
    case DoCleanup(now) => SealedCleanup(c, e, p, now);
    case Idle =>
    case DoUpsert(id, sub) => SealedUpsert(c, e, p, id, sub, plain.sub);
    case DoDeactivate(id, owner) => SealedDeactivate(c, e, p, id, owner);
    case DoRevokeExcept(owner, fingerprint) => SealedRevoke(c, e, p, owner, fingerprint);
  }

  lemma SealedOwns(c: Cipher, e: Store, p: Store, id: SubId, owner: string)
    requires Sealed(c, e, p)
    ensures Owns(e, id, owner) <==> Owns(p, id, owner)
  {
  }

  // ---- what a worker receives ----

  datatype OutboxRecord = OutboxRecord(
    id: Uuid, kind: SourceKind, eventId: string, subId: SubId, url: Bytes, secret: Bytes,
    oldSecret: Option<Bytes>, oldSecretExpiresAt: Option<int>, payload: Bytes, attempts: nat, token: Uuid)

  function RecordOf(item: Item, url: Bytes, secret: Bytes, oldSecret: Option<Bytes>, payload: Bytes): OutboxRecord
  {
    OutboxRecord(item.id, item.sub.kind, item.eventId, item.subId, url, secret, oldSecret,
                 item.sub.oldSecretExpiresAt, payload, item.attempts, item.token)
  }

  function PlainRecord(item: Item): OutboxRecord
  {
    RecordOf(item, item.sub.url, item.sub.secret, item.sub.oldSecret, item.payload)
  }

  function OpenOption(c: Cipher, aad: Aad, sealed: Option<Bytes>): Result<Option<Bytes>, ()>
  {
    match sealed
    case None => Ok(None)
    case Some(bytes) => if c.open(aad, bytes).Some? then Ok(c.open(aad, bytes)) else Err(())
  }

  /** Opens the payload under the occurrence and the callback data under the subscription. */
  function OpenItem(c: Cipher, item: Item): Result<OutboxRecord, ()>
  {
    var payload := c.open(OfOcc(item.occurrence), item.payload);
    var url := c.open(OfSub(item.subId), item.sub.url);
    var secret := c.open(OfSub(item.subId), item.sub.secret);
    var oldSecret := OpenOption(c, OfSub(item.subId), item.sub.oldSecret);
    if payload.None? || url.None? || secret.None? || oldSecret.Err? then Err(())
    else Ok(RecordOf(item, url.value, secret.value, oldSecret.value, payload.value))
  }

  lemma SealedClaimOpens(c: Cipher, e: Store, p: Store, q: Query)
    requires Sealed(c, e, p)
    ensures Claimed(e, q).Some? <==> Claimed(p, q).Some?
    ensures Claimed(e, q).Some? ==> OpenItem(c, Claimed(e, q).value) == Ok(PlainRecord(Claimed(p, q).value))
  {
    hide Claimable, NextRow, OpenItem;
    SealedSelection(c, e, p, q);
    ClaimTakesEarliest(p, q);
    ClaimTakesEarliest(e, q);
    if NextRow(p, q).Some? { SealedItemOpens(c, e, p, q, NextRow(p, q).value); }
  }

  lemma SealedItemOpens(c: Cipher, e: Store, p: Store, q: Query, r: Uuid)
    requires Sealed(c, e, p) && Claimable(e, q, r) && Claimable(p, q, r)
    ensures OpenItem(c, ItemOf(e, q, r)) == Ok(PlainRecord(ItemOf(p, q, r)))
  {
    assert SealedRow(c, e.rows[r], p.rows[r]);
    assert SealedSub(c, p.rows[r].subscription, e.subs[p.rows[r].subscription], p.subs[p.rows[r].subscription]);
  }

  /** Over any run of transactions, every claim of the encrypted store opens, to exactly what the
      plaintext store would have handed out. */
  lemma {:induction false} EncryptedRunRefinesPlaintext(
    c: Cipher, es: seq<Store>, sealed: seq<Op>, ps: seq<Store>, plain: seq<Op>, n: nat)
    requires IsRun(ps, plain) && |es| == |ps| && |sealed| == |plain| && n < |ps| && Sealed(c, es[0], ps[0])
    requires forall i | 0 <= i < |plain| :: SealedOp(c, sealed[i], plain[i]) && es[i + 1] == Next(es[i], sealed[i])
    ensures Sealed(c, es[n], ps[n])
    ensures n < |plain| ==> Ready(es[n], sealed[n])
    ensures n < |plain| && plain[n].DoClaim? && Claimed(ps[n], plain[n].q).Some? ==>
      && sealed[n].DoClaim? && Claimed(es[n], sealed[n].q).Some?
      && OpenItem(c, Claimed(es[n], sealed[n].q).value) == Ok(PlainRecord(Claimed(ps[n], plain[n].q).value))
  {
    hide Sealed, Next, Ready, Inv, Claimed, OpenItem;
    if n > 0 {
      EncryptedRunRefinesPlaintext(c, es, sealed, ps, plain, n - 1);
      RunInv(ps, plain, n - 1);
      SealedNext(c, es[n - 1], ps[n - 1], sealed[n - 1], plain[n - 1]);
    }
    if n < |plain| {
      SealedReady(c, es[n], ps[n], sealed[n], plain[n]);
      if plain[n].DoClaim? { SealedClaimOpens(c, es[n], ps[n], plain[n].q); }
    }
  }

  /** From an empty encrypted store, every claim opens to the payload and event id that one publish
      stored for the occurrence, and to the url and secrets most recently written for the
      subscription. */
  lemma EncryptedClaimReturnsWhatWasStored(
    c: Cipher, es: seq<Store>, sealed: seq<Op>, ps: seq<Store>, plain: seq<Op>, n: nat, r: Uuid)
    returns (p: nat, k: nat)
    requires IsRun(ps, plain) && |es| == |ps| && |sealed| == |plain| && n < |plain| && ps[0] == EMPTY && es[0] == EMPTY
    requires forall i | 0 <= i < |plain| :: SealedOp(c, sealed[i], plain[i]) && es[i + 1] == Next(es[i], sealed[i])
    requires Leases(ps[n], plain[n], r)
    ensures sealed[n] == plain[n] && Claimed(es[n], sealed[n].q).Some?
    ensures OpenItem(c, Claimed(es[n], sealed[n].q).value).Ok?
    ensures var record := OpenItem(c, Claimed(es[n], sealed[n].q).value).value;
      && p < n && plain[p].DoPublish? && r in plain[p].drawn && record.id == r
      && record.payload == plain[p].payload && record.eventId == plain[p].occ.eventId
      && record.subId == plain[p].drawn[r] && LastWrite(ps, plain, k, n, record.subId)
      && record.url == plain[k].sub.url && record.secret == plain[k].sub.secret
      && record.oldSecret == plain[k].sub.oldSecret && record.oldSecretExpiresAt == plain[k].sub.oldSecretExpiresAt
      && record.kind == plain[k].sub.kind && r in ps[n].rows && record.attempts == ps[n].rows[r].attempts + 1
      && record.token == plain[n].q.token
  {
    hide Sealed, Next, Ready, Inv, OpenItem, Claimable;
    EmptySealed(c);
    p, k := ClaimReturnsWhatWasStored(ps, plain, n, r);
    ClaimTakesEarliest(ps[n], plain[n].q);
    assert Claimable(ps[n], plain[n].q, r) && r in ps[n].rows by { ClaimableRow(ps[n], plain[n].q, r); }
    EncryptedRunRefinesPlaintext(c, es, sealed, ps, plain, n);
  }

  lemma ClaimableRow(s: Store, q: Query, r: Uuid)
    requires Claimable(s, q, r)
    ensures r in s.rows
  {
  }

  // ---- the store ----

  class Events {
    const cipher: Cipher
    const backend: Backend
    /** What the tables say once opened. */
    ghost var plain: Store

    ghost predicate Valid()
      reads this, backend
    {
      Sound(cipher) && Inv(plain) && Inv(backend.State()) && Sealed(cipher, backend.State(), plain)
    }

    constructor (cipher: Cipher)
      requires Sound(cipher)
      ensures Valid() && fresh(backend) && plain == EMPTY && this.cipher == cipher
    {
      hide Inv, Sealed, Sound;
      this.cipher := cipher;
      backend := new Backend();
      plain := EMPTY;
      new;
      EmptySealed(cipher);
    }

    /** Stores `sub` with its callback data sealed under `id`. */
    method UpsertSubscription(id: SubId, sub: Subscription, nonces: (Nonce, Nonce, Nonce, Nonce)) returns (ok: bool)
      requires Valid() && sub.active
      modifies this`plain, backend
      ensures Valid() && plain == Next(old(plain), DoUpsert(id, sub)) && (ok <==> UpsertAllowed(old(plain), id, sub))
    {
      hide Inv, Sealed, Next;
      var aad := OfSub(id);
      var row := sub.(url := cipher.seal(aad, sub.url, nonces.0), secret := cipher.seal(aad, sub.secret, nonces.1),
        oldSecret := match sub.oldSecret case None => None case Some(previous) =>
          Some(cipher.seal(aad, previous, nonces.2)),
        arguments := cipher.seal(aad, sub.arguments, nonces.3));
      assert SealedSub(cipher, id, row, sub);
      SealedUpsertAllowed(cipher, backend.State(), plain, id, row, sub);
      SealedNext(cipher, backend.State(), plain, DoUpsert(id, row), DoUpsert(id, sub));
      NextKeepsInv(plain, DoUpsert(id, sub));
      ok := backend.UpsertSubscription(id, row);
      plain := Next(plain, DoUpsert(id, sub));
    }

    /** Reads back the secrets of a subscription. */
    method GetSubscription(id: SubId) returns (found: Result<Option<Subscription>, ()>)
      requires Valid()
      ensures found.Ok? && (found.value.Some? <==> id in plain.subs)
      ensures found.value.Some? ==>
        && found.value.value.secret == plain.subs[id].secret && found.value.value.oldSecret == plain.subs[id].oldSecret
        && found.value.value.oldSecretExpiresAt == plain.subs[id].oldSecretExpiresAt
        && found.value.value.active == plain.subs[id].active
    {
      var row := backend.GetSubscription(id);
      if row.None? { return Ok(None); }
      assert SealedSub(cipher, id, row.value, plain.subs[id]);
      var secret := cipher.open(OfSub(id), row.value.secret);
      var oldSecret := OpenOption(cipher, OfSub(id), row.value.oldSecret);
      if secret.None? || oldSecret.Err? { return Err(()); }
      found := Ok(Some(row.value.(secret := secret.value, oldSecret := oldSecret.value)));
    }

    /** Publishes with the payload sealed under the new occurrence. */
    method Publish(occId: Uuid, occ: Occurrence, payload: Bytes, eventType: string, now: int, nonce: Nonce,
                   uuids: seq<Uuid>) returns (drawn: map<Uuid, SubId>)
      requires Valid() && occId !in plain.used && occId !in uuids && Distinct(uuids)
      requires forall u <- uuids :: u !in plain.used
      requires |uuids| >= |Matching(plain, occ.owner, eventType, now)|
      modifies this`plain, backend
      ensures Valid() && Ready(old(plain), DoPublish(occId, occ, payload, eventType, now, drawn))
      ensures plain == Next(old(plain), DoPublish(occId, occ, payload, eventType, now, drawn))
    {
      hide Inv, Sealed, Next, Ready, Distinct, Matching;
      var sealed := cipher.seal(OfOcc(occId), payload, nonce);
      ghost var e := backend.State();
      SealedMatching(cipher, e, plain, occ.owner, eventType, now);
      drawn := backend.Publish(occId, occ, sealed, eventType, now, uuids);
      ghost var op := DoPublish(occId, occ, payload, eventType, now, drawn);
      SealedReady(cipher, e, plain, op.(payload := sealed), op);
      SealedNext(cipher, e, plain, op.(payload := sealed), op);
      NextKeepsInv(plain, op);
      plain := Next(plain, op);
    }

    /** Claims and opens: it never fails to open, and hands out what was stored. */
    method ClaimOutbox(q: Query) returns (record: Result<Option<OutboxRecord>, ()>)
      requires Valid() && q.token !in plain.used
      modifies this`plain, backend
      ensures Valid() && plain == Next(old(plain), DoClaim(q)) && record.Ok?
      ensures record.value.Some? <==> Claimed(old(plain), q).Some?
      ensures record.value.Some? ==> record.value.value == PlainRecord(Claimed(old(plain), q).value)
    {
      hide Inv, Sealed, Next, Claimed, OpenItem;
      ghost var e := backend.State();
      SealedSameIds(cipher, e, plain);
      SealedClaimOpens(cipher, e, plain, q);
      SealedNext(cipher, e, plain, DoClaim(q), DoClaim(q));
      NextKeepsInv(plain, DoClaim(q));
      var item := backend.ClaimOutbox(q);
      plain := Next(plain, DoClaim(q));
      if item.None? { return Ok(None); }
      var result := OpenItem(cipher, item.value);
      record := if result.Ok? then Ok(Some(result.value)) else Err(());
    }
  }

  lemma EmptySealed(c: Cipher)
    ensures Inv(EMPTY) && Sealed(c, EMPTY, EMPTY)
  {
  }

  lemma SealedSameIds(c: Cipher, e: Store, p: Store)
    requires Sealed(c, e, p)
    ensures e.used == p.used
  {
  }

  lemma SealedUpsertAllowed(c: Cipher, e: Store, p: Store, id: SubId, sealed: Subscription, plain: Subscription)
    requires Sealed(c, e, p) && SealedSub(c, id, sealed, plain)
    ensures UpsertAllowed(e, id, sealed) <==> UpsertAllowed(p, id, plain)
  {
  }
}
