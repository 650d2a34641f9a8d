/** Where the contents of the tables come from: fan-out of an event, and the data a claim returns. */
module OutboxHistory {
  import opened Wrappers
  import opened Outbox
  import opened OutboxInvariants
  import opened OutboxRuns

  // ---- fan-out ----

  /** Row r carries event occurrence o to subscription id. */
  predicate Carries(s: Store, r: Uuid, o: Uuid, id: SubId)
  {
    r in s.rows && s.rows[r].occurrence == o && s.rows[r].subscription == id
  }

  lemma FanOutRows(s: Store, op: Op)
    requires Linked(s) && AllDrawn(s) && op.DoPublish? && Ready(s, op) && FansOut(s, op.occ, op.eventType, op.now)
    ensures op.occId !in s.occs && Next(s, op).occs == s.occs[op.occId := op.occ]
    ensures forall r <- Next(s, op).rows ::
      if r in op.drawn then Next(s, op).rows[r] == NewRow(op.occId, op.occ, op.drawn[r], op.payload, op.now)
      else Next(s, op).rows[r].occurrence != op.occId
    ensures op.drawn.Keys <= Next(s, op).rows.Keys
  {
    PublishAdds(s, op);
  }

  /** The first publish of an event gives each subscription that matches at that moment one row,
      and no other subscription any. */
  lemma FanOutIsExact(s: Store, op: Op, id: SubId)
    requires Inv(s) && op.DoPublish? && Ready(s, op) && FansOut(s, op.occ, op.eventType, op.now)
    ensures Unique(Next(s, op)) && op.occId !in s.occs && Next(s, op).occs == s.occs[op.occId := op.occ]
    ensures (exists r :: Carries(Next(s, op), r, op.occId, id)) <==>
      id in s.subs && Matches(s.subs[id], op.occ.owner, op.eventType, op.now)
    ensures forall r | Carries(Next(s, op), r, op.occId, id) ::
      Next(s, op).rows[r] == NewRow(op.occId, op.occ, id, op.payload, op.now)
  {
    hide Linked, AllDrawn, Unique, LeasesSound, HasEvent, Matches, Added, Next;
    NextKeepsInv(s, op);
    FanOutRows(s, op);
    var t := Next(s, op);
    if id in Matching(s, op.occ.owner, op.eventType, op.now) {
      var r :| r in op.drawn && op.drawn[r] == id;
      assert Carries(t, r, op.occId, id);
    }
  }

  lemma OccurrenceFixed(s: Store, op: Op, o: Uuid)
    requires Inv(s) && Ready(s, op) && o in s.used && o in Next(s, op).occs
    ensures o in s.occs && Next(s, op).occs[o] == s.occs[o]
  {
    if Trims(op) { TrimmingOps(s, op); }
  }

  lemma {:induction false} OccurrenceOverTime(ss: seq<Store>, ops: seq<Op>, i: nat, j: nat, o: Uuid)
    requires IsRun(ss, ops) && i <= j < |ss| && o in ss[i].used && o in ss[j].occs
    ensures o in ss[i].occs && ss[j].occs[o] == ss[i].occs[o]
    decreases j
  {
    hide Next, Inv, Ready;
    if i < j {
      RunInv(ss, ops, j - 1);
      UsedGrows(ss, ops, i, j - 1);
      OccurrenceFixed(ss[j - 1], ops[j - 1], o);
      OccurrenceOverTime(ss, ops, i, j - 1, o);
    }
  }

  /** While the occurrence of an event is retained, publishing that event again changes nothing,
      whatever happened to the subscriptions in between. */
  lemma RepublishChangesNothing(ss: seq<Store>, ops: seq<Op>, i: nat, j: nat)
    requires IsRun(ss, ops) && i < j < |ops|
    requires ops[i].DoPublish? && FansOut(ss[i], ops[i].occ, ops[i].eventType, ops[i].now)
    requires ops[i].occId in ss[j].occs
    requires ops[j].DoPublish? && ops[j].occ.eventId == ops[i].occ.eventId
    ensures ss[j + 1] == ss[j]
  {
    OccurrenceOverTime(ss, ops, i + 1, j, ops[i].occId);
    assert HasEvent(ss[j], ops[j].occ.eventId);
  }

  // ---- provenance ----

  ghost predicate Writes(s: Store, op: Op, id: SubId)
  {
    op.DoUpsert? && op.id == id && UpsertAllowed(s, id, op.sub)
  }

  /** Transaction k wrote subscription id and no later one among the first n did. */
  ghost predicate LastWrite(ss: seq<Store>, ops: seq<Op>, k: nat, n: nat, id: SubId)
    requires |ss| == |ops| + 1 && n <= |ops|
  {
    k < n && Writes(ss[k], ops[k], id) && forall m | k < m < n :: !Writes(ss[m], ops[m], id)
  }

  /** `sub` is what the write stored, possibly switched off since. */
  predicate SameBut(sub: Subscription, written: Subscription)
  {
    sub == written.(active := sub.active) && (sub.active ==> written.active)
  }

  lemma SubscriptionStep(s: Store, op: Op, id: SubId)
    requires id in Next(s, op).subs
    ensures if Writes(s, op, id) then Next(s, op).subs[id] == op.sub
            else id in s.subs && SameBut(Next(s, op).subs[id], s.subs[id])
  {
  }

  lemma {:induction false} SubscriptionFromLastWrite(ss: seq<Store>, ops: seq<Op>, n: nat, id: SubId) returns (k: nat)
    requires IsRun(ss, ops) && ss[0] == EMPTY && n <= |ops| && id in ss[n].subs
    ensures LastWrite(ss, ops, k, n, id) && SameBut(ss[n].subs[id], ops[k].sub)
  {
    hide Next, Inv, Ready;
    SubscriptionStep(ss[n - 1], ops[n - 1], id);
    if Writes(ss[n - 1], ops[n - 1], id) {
      k := n - 1;
    } else {
      k := SubscriptionFromLastWrite(ss, ops, n - 1, id);
    }
  }

  lemma {:induction false} RowFromPublish(ss: seq<Store>, ops: seq<Op>, n: nat, r: Uuid) returns (p: nat)
    requires IsRun(ss, ops) && ss[0] == EMPTY && n <= |ops| && r in ss[n].rows
    ensures p < n && ops[p].DoPublish? && FansOut(ss[p], ops[p].occ, ops[p].eventType, ops[p].now)
    ensures r in ops[p].drawn && ss[n].rows[r].subscription == ops[p].drawn[r]
    ensures ss[n].rows[r].payload == ops[p].payload && ss[n].rows[r].occurrence == ops[p].occId
  {
    hide Next, Inv, Ready, FansOut;
    RunInv(ss, ops, n - 1);
    if r in ss[n - 1].rows {
      p := RowFromPublish(ss, ops, n - 1, r);
      RowEvolves(ss[n - 1], ops[n - 1], r);
    } else {
      p := n - 1;
      RowAppearsByPublish(ss[p], ops[p], r);
    }
  }

  lemma RowAppearsByPublish(s: Store, op: Op, r: Uuid)
    requires Inv(s) && Ready(s, op) && r !in s.rows && r in Next(s, op).rows
    ensures op.DoPublish? && FansOut(s, op.occ, op.eventType, op.now) && r in op.drawn
    ensures Next(s, op).rows[r] == NewRow(op.occId, op.occ, op.drawn[r], op.payload, op.now)
  {
    if Trims(op) {
      TrimmingOps(s, op);
    } else if op.DoClaim? {
      ClaimTakesEarliest(s, op.q);
    }
  }

  /** Every claim of a run from an empty store hands out the event id and payload that one publish
      stored for its occurrence, with the subscription data most recently written for its id. */
  lemma ClaimReturnsWhatWasStored(ss: seq<Store>, ops: seq<Op>, n: nat, r: Uuid) returns (p: nat, k: nat)
    requires IsRun(ss, ops) && ss[0] == EMPTY && n < |ops| && Leases(ss[n], ops[n], r)
    ensures Claimed(ss[n], ops[n].q).Some?
    ensures var item := Claimed(ss[n], ops[n].q).value;
      && p < n && ops[p].DoPublish? && r in ops[p].drawn
      && item.payload == ops[p].payload && item.eventId == ops[p].occ.eventId && item.subId == ops[p].drawn[r]
      && LastWrite(ss, ops, k, n, item.subId) && item.sub == ops[k].sub
  {
    ClaimTakesEarliest(ss[n], ops[n].q);
    p := RowFromPublish(ss, ops, n, r);
    k := SubscriptionFromLastWrite(ss, ops, n, ss[n].rows[r].subscription);
    OccurrenceOverTime(ss, ops, p + 1, n, ops[p].occId);
  }
}
