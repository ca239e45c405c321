/**
 * The acknowledgement table of the two-phase stats protocol and the settling of
 * batches inside a billing transaction (app/fork/jobs/stat_batches.py), for one
 * kind of stats.
 */
module StatBatches {
  import opened NatSets

  type NodeId = nat

  /** A batch epoch: the marker stored at first contact, or the run of a node process. */
  datatype Epoch = Claim(node: NodeId) | Run(serial: nat)

  datatype StatBatch = StatBatch(epoch: Epoch, id: nat, billable: bool)

  /** A row of node_stat_acks; the table is keyed by epoch. */
  datatype AckRow = AckRow(node: NodeId, id: nat)

  type AckTable = map<Epoch, AckRow>
  type Batches = map<NodeId, StatBatch>

  datatype SettleResult = Stale(nodes: set<NodeId>) | Settled(table: AckTable)

  function Held(batches: Batches): Batches {
    map n | n in batches && batches[n].id > 0 :: batches[n]
  }

  function AsAckOnly(batches: Batches, stale: set<NodeId>): Batches {
    map n | n in batches :: if n in stale then batches[n].(billable := false) else batches[n]
  }

  function StoredId(table: AckTable, e: Epoch): nat {
    if e in table then table[e].id else 0
  }

  // ------------------------------------------------------------------ staleness

  ghost predicate Carries(live: Batches, m: NodeId, n: NodeId) {
    m in live && n in live && m < n && live[m].epoch == live[n].epoch && live[n].id <= live[m].id
  }

  /** A billable batch is stale when it was settled before, or an earlier node of the same write carries it. */
  ghost predicate IsStale(table: AckTable, live: Batches, n: NodeId) {
    && n in live
    && live[n].billable
    && (live[n].id <= StoredId(table, live[n].epoch) || exists m :: Carries(live, m, n))
  }

  method FindStale(table: AckTable, live: Batches) returns (stale: set<NodeId>)
    ensures forall n :: n in stale <==> IsStale(table, live, n)
  {
    stale := {};
    var carried: map<Epoch, nat> := map[];
    var todo := live.Keys;
    while todo != {}
      invariant todo <= live.Keys
      invariant forall m: NodeId, n: NodeId :: m in live && m !in todo && n in todo ==> m < n
      invariant forall n :: n in stale <==> n !in todo && IsStale(table, live, n)
      invariant forall m :: m in live && m !in todo ==> live[m].epoch in carried && live[m].id <= carried[live[m].epoch]
      invariant forall e :: e in carried ==>
                  exists m :: m in live && m !in todo && live[m].epoch == e && live[m].id == carried[e]
    {
      var n := Least(todo);
      var b := live[n];
      var before := if b.epoch in carried then carried[b.epoch] else 0;
      var already := if StoredId(table, b.epoch) > before then StoredId(table, b.epoch) else before;
      assert b.epoch in carried && b.id <= carried[b.epoch] ==> exists m :: Carries(live, m, n) by {
        if b.epoch in carried && b.id <= carried[b.epoch] {
          var m :| m in live && m !in todo && live[m].epoch == b.epoch && live[m].id == carried[b.epoch];
          assert Carries(live, m, n);
        }
      }
      assert forall m :: Carries(live, m, n) ==> m in live && m !in todo;
      assert IsStale(table, live, n) <==> b.billable && b.id <= already;
      if b.billable && b.id <= already {
        stale := stale + {n};
      }
      ghost var was := carried;
      carried := carried[b.epoch := if before > b.id then before else b.id];
      ghost var rest := todo - {n};
      forall e | e in carried
        ensures exists m :: m in live && m !in rest && live[m].epoch == e && live[m].id == carried[e]
      {
        if e == b.epoch && before <= b.id {
          assert n in live && n !in rest;
        } else {
          var m :| m in live && m !in todo && live[m].epoch == e && live[m].id == was[e];
          assert m in live && m !in rest;
        }
      }
      todo := todo - {n};
    }
  }

  // ------------------------------------------------------------------- settling

  ghost predicate Writes(live: Batches, n: NodeId, e: Epoch) {
    n in live && live[n].epoch == e
  }

  ghost predicate Written(live: Batches, e: Epoch) {
    exists n :: Writes(live, n, e)
  }

  /**
   * The row of epoch e is deleted while `live` is settled: its node reports another
   * epoch, and no smaller node of the same write took the row over first.
   */
  ghost predicate Orphans(table: AckTable, live: Batches, e: Epoch) {
    && e in table
    && table[e].node in live
    && live[table[e].node].epoch != e
    && forall m :: Writes(live, m, e) ==> table[e].node < m
  }

  ghost predicate IsIdAfter(table: AckTable, live: Batches, e: Epoch, id: nat) {
    && StoredId(table, e) <= id
    && (forall n :: Writes(live, n, e) ==> live[n].id <= id)
    && ((e in table && table[e].id == id) || exists n :: Writes(live, n, e) && live[n].id == id)
  }

  ghost predicate IsOwnerAfter(table: AckTable, live: Batches, e: Epoch, owner: NodeId) {
    if Written(live, e) then
      Writes(live, owner, e) && forall n: NodeId :: Writes(live, n, e) ==> n <= owner
    else
      e in table && owner == table[e].node
  }

  ghost predicate SettlesAt(table: AckTable, live: Batches, after: AckTable, e: Epoch) {
    && (e in after <==> !Orphans(table, live, e) && (e in table || Written(live, e)))
    && (e in after ==> IsIdAfter(table, live, e, after[e].id) && IsOwnerAfter(table, live, e, after[e].node))
  }

  /** What settling `live` makes of the table, epoch by epoch. */
  ghost predicate Settles(table: AckTable, live: Batches, after: AckTable) {
    forall e :: SettlesAt(table, live, after, e)
  }

  /** The statements one batch of the write loop issues: update or insert, then delete. */
  function WriteOne(now: AckTable, stored: map<Epoch, nat>, n: NodeId, b: StatBatch): AckTable {
    var upserted :=
      if b.epoch !in stored then
        now[b.epoch := AckRow(n, b.id)]
      else if b.epoch in now then
        now[b.epoch := AckRow(n, if stored[b.epoch] > b.id then stored[b.epoch] else b.id)]
      else
        now;
    map e | e in upserted && !(upserted[e].node == n && e != b.epoch) :: upserted[e]
  }

  ghost predicate TracksAt(table: AckTable, live: Batches, stored: map<Epoch, nat>, e: Epoch) {
    && (e in stored <==> e in table || Written(live, e))
    && (e in stored ==> IsIdAfter(table, live, e, stored[e]))
  }

  ghost predicate Tracks(table: AckTable, live: Batches, stored: map<Epoch, nat>) {
    forall e :: TracksAt(table, live, stored, e)
  }

  function TrackOne(stored: map<Epoch, nat>, b: StatBatch): map<Epoch, nat> {
    stored[b.epoch := if b.epoch in stored && stored[b.epoch] > b.id then stored[b.epoch] else b.id]
  }

  /** One round of the write loop extends the settled batches by the next node. */
  lemma WriteOneSettles(table: AckTable, live: Batches, now: AckTable, stored: map<Epoch, nat>, n: NodeId, b: StatBatch)
    requires forall m :: m in live ==> m < n
    requires Settles(table, live, now) && Tracks(table, live, stored)
    ensures Settles(table, live[n := b], WriteOne(now, stored, n, b))
    ensures Tracks(table, live[n := b], TrackOne(stored, b))
  {
    var more, after, tracked := live[n := b], WriteOne(now, stored, n, b), TrackOne(stored, b);
    forall e
      ensures SettlesAt(table, more, after, e)
      ensures TracksAt(table, more, tracked, e)
    {
      assert SettlesAt(table, live, now, e) && TracksAt(table, live, stored, e);
      assert TracksAt(table, live, stored, b.epoch);
      if e == b.epoch {
        WriteOneOwnEpoch(table, live, now, stored, n, b);
      } else {
        WriteOneOtherEpoch(table, live, now, stored, n, b, e);
      }
    }
  }

  lemma WriteOneOwnEpoch(table: AckTable, live: Batches, now: AckTable, stored: map<Epoch, nat>, n: NodeId, b: StatBatch)
    requires forall m :: m in live ==> m < n
    requires SettlesAt(table, live, now, b.epoch) && TracksAt(table, live, stored, b.epoch)
    ensures SettlesAt(table, live[n := b], WriteOne(now, stored, n, b), b.epoch)
    ensures TracksAt(table, live[n := b], TrackOne(stored, b), b.epoch)
  {
    var e, more := b.epoch, live[n := b];
    assert Writes(more, n, e);
    forall m
      ensures Writes(more, m, e) <==> Writes(live, m, e) || m == n
    {
    }
    var id := TrackOne(stored, b)[e];
    assert IsIdAfter(table, more, e, id) by {
      if e in stored && id != b.id && !(e in table && table[e].id == id) {
        var m :| Writes(live, m, e) && live[m].id == id;
        assert Writes(more, m, e);
      }
    }
  }

  lemma WriteOneOtherEpoch(table: AckTable, live: Batches, now: AckTable, stored: map<Epoch, nat>, n: NodeId, b: StatBatch, e: Epoch)
    requires forall m :: m in live ==> m < n
    requires e != b.epoch
    requires SettlesAt(table, live, now, e) && TracksAt(table, live, stored, e)
    ensures SettlesAt(table, live[n := b], WriteOne(now, stored, n, b), e)
    ensures TracksAt(table, live[n := b], TrackOne(stored, b), e)
  {
    var more := live[n := b];
    forall m
      ensures Writes(more, m, e) <==> Writes(live, m, e)
    {
    }
    assert Written(more, e) <==> Written(live, e);
    forall id: nat
      ensures IsIdAfter(table, more, e, id) <==> IsIdAfter(table, live, e, id)
    {
    }
  }

  /** settle_batches: refuse the write when a billable batch was settled before, else record every batch. */
  method SettleBatches(table: AckTable, batches: Batches) returns (r: SettleResult)
    ensures r.Stale? ==> r.nodes != {} && forall n :: n in r.nodes <==> IsStale(table, Held(batches), n)
    ensures r.Settled? ==>
              && (forall n :: !IsStale(table, Held(batches), n))
              && Settles(table, Held(batches), r.table)
  {
    var live := Held(batches);
    var stale := FindStale(table, live);
    if stale != {} {
      return Stale(stale);
    }
    var after := WriteBatches(table, live);
    return Settled(after);
  }

  method WriteBatches(table: AckTable, live: Batches) returns (now: AckTable)
    ensures Settles(table, live, now)
  {
    now := table;
    var stored: map<Epoch, nat> := map e | e in table :: table[e].id;
    var todo := live.Keys;
    ghost var written: Batches := map[];
    while todo != {}
      invariant todo <= live.Keys
      invariant forall m: NodeId, n: NodeId :: m in written && n in todo ==> m < n
      invariant written.Keys == live.Keys - todo
      invariant forall n :: n in written ==> written[n] == live[n]
      invariant Settles(table, written, now) && Tracks(table, written, stored)
    {
      var n := Least(todo);
      var b := live[n];
      WriteOneSettles(table, written, now, stored, n, b);
      now := WriteOne(now, stored, n, b);
      stored := TrackOne(stored, b);
      todo := todo - {n};
      written := written[n := b];
    }
    assert written == live;
  }

  // ------------------------------------------------------- what settling promises

  ghost predicate Recorded(table: AckTable, e: Epoch, k: nat) {
    e in table && k <= table[e].id
  }

  /**
   * A batch recorded before the write, or written by it, is recorded after it exactly
   * when the write does not orphan its epoch.
   */
  lemma RecordSurvivesExactly(table: AckTable, live: Batches, after: AckTable, e: Epoch, k: nat)
    requires Settles(table, live, after)
    requires Recorded(table, e, k) || exists n :: Writes(live, n, e) && k <= live[n].id
    ensures Recorded(after, e, k) <==> !Orphans(table, live, e)
  {
    assert SettlesAt(table, live, after, e);
    if n :| Writes(live, n, e) && k <= live[n].id {
      assert Written(live, e);
    }
  }

  ghost predicate OneRowPerNode(table: AckTable) {
    forall e, f :: e in table && f in table && table[e].node == table[f].node ==> e == f
  }

  /** No node ever has two rows, so the row its acknowledgement is read from is unambiguous. */
  lemma SettlingKeepsOneRowPerNode(table: AckTable, live: Batches, after: AckTable)
    requires OneRowPerNode(table) && Settles(table, live, after)
    ensures OneRowPerNode(after)
  {
    forall e, f | e in after && f in after && after[e].node == after[f].node
      ensures e == f
    {
      OwnerAfter(table, live, after, e);
      OwnerAfter(table, live, after, f);
    }
  }

  lemma OwnerAfter(table: AckTable, live: Batches, after: AckTable, e: Epoch)
    requires Settles(table, live, after) && e in after
    ensures after[e].node in live ==> live[after[e].node].epoch == e
    ensures after[e].node !in live ==> e in table && after[e].node == table[e].node
  {
    assert SettlesAt(table, live, after, e);
    if !Written(live, e) {
      assert forall m :: !Writes(live, m, e);
    }
  }

  /** Once the stale batches are turned into acknowledgements, the same table takes the write. */
  lemma AckOnlyRoundSettles(table: AckTable, live: Batches, stale: set<NodeId>)
    requires forall n :: n in stale <==> IsStale(table, live, n)
    ensures forall n :: !IsStale(table, AsAckOnly(live, stale), n)
  {
    var next := AsAckOnly(live, stale);
    forall n
      ensures !IsStale(table, next, n)
    {
      if IsStale(table, next, n) {
        if m :| Carries(next, m, n) {
          assert Carries(live, m, n);
        }
        assert IsStale(table, live, n);
      }
    }
  }

  /** The id an epoch is left at was recorded before, or is that of a batch billed by this very write. */
  lemma RecordedIdIsBilled(table: AckTable, sent: Batches, stale: set<NodeId>, after: AckTable, e: Epoch)
    requires forall n :: n in sent ==> sent[n].billable && sent[n].id > 0
    requires forall n :: n in stale <==> IsStale(table, sent, n)
    requires Settles(table, AsAckOnly(sent, stale), after) && e in after
    ensures (e in table && after[e].id == table[e].id)
            || exists n :: n in sent && n !in stale && sent[n].epoch == e && sent[n].id == after[e].id
  {
    var live := AsAckOnly(sent, stale);
    assert SettlesAt(table, live, after, e);
    var id := after[e].id;
    if !(e in table && table[e].id == id) {
      var candidates := set n | n in sent && sent[n].epoch == e && sent[n].id == id;
      var w :| Writes(live, w, e) && live[w].id == id;
      assert w in candidates;
      var n := Least(candidates);
      forall m
        ensures !Carries(sent, m, n)
      {
        if m in sent && m < n && sent[m].epoch == e {
          assert Writes(live, m, e);
          assert m !in candidates;
        }
      }
    }
  }

  function BillableNodes(batches: Batches): set<NodeId> {
    set n | n in batches && batches[n].billable
  }

  ghost predicate SameBatches(a: Batches, b: Batches) {
    a.Keys == b.Keys && forall n :: n in a ==> a[n].epoch == b[n].epoch && a[n].id == b[n].id
  }

  /** A refused round: some batch is stale, and exactly the stale ones are no longer billable in the next. */
  ghost predicate IsRefusedFor(table: AckTable, live: Batches, next: Batches) {
    && (exists n :: IsStale(table, live, n))
    && next.Keys == live.Keys
    && forall n :: n in live ==> next[n] == if IsStale(table, live, n) then live[n].(billable := false) else live[n]
  }

  /**
   * The retry loop of _persist_collected_usage, where the i-th attempt meets the table
   * tableAt(i). Each refused round turns at least one billable batch into an
   * acknowledgement, so the loop ends within one round per billable batch.
   */
  method PersistUntilSettled(tableAt: nat -> AckTable, batches: Batches)
    returns (rounds: nat, last: Batches, after: AckTable, ghost tried: seq<Batches>)
    ensures |tried| == rounds + 1 && tried[0] == Held(batches) && tried[rounds] == last
    ensures forall i: nat :: i < rounds ==> IsRefusedFor(tableAt(i), tried[i], tried[i + 1])
    ensures forall n :: n in last <==> n in batches && batches[n].id > 0
    ensures rounds <= |BillableNodes(Held(batches))|
    ensures SameBatches(Held(batches), last)
    ensures BillableNodes(last) <= BillableNodes(Held(batches))
    ensures forall n :: !IsStale(tableAt(rounds), last, n)
    ensures Settles(tableAt(rounds), last, after)
  {
    rounds := 0;
    last := Held(batches);
    tried := [last];
    while true
      invariant |tried| == rounds + 1 && tried[0] == Held(batches) && tried[rounds] == last
      invariant forall i: nat :: i < rounds ==> IsRefusedFor(tableAt(i), tried[i], tried[i + 1])
      invariant SameBatches(Held(batches), last)
      invariant BillableNodes(last) <= BillableNodes(Held(batches))
      invariant rounds + |BillableNodes(last)| <= |BillableNodes(Held(batches))|
      decreases |BillableNodes(last)|
    {
      assert Held(last) == last;
      var r := SettleBatches(tableAt(rounds), last);
      match r
      case Settled(table) =>
        after := table;
        return;
      case Stale(nodes) =>
        var n :| n in nodes;
        var next := AsAckOnly(last, nodes);
        assert IsStale(tableAt(rounds), last, n);
        assert BillableNodes(next) <= BillableNodes(last) - {n};
        FewerElements(BillableNodes(next), BillableNodes(last) - {n});
        assert IsRefusedFor(tableAt(rounds), last, next);
        last := next;
        tried := tried + [next];
        rounds := rounds + 1;
    }
  }

  // ------------------------------------------------------------ acknowledgements

  datatype Ack = NoAck | Ack(epoch: Epoch, id: nat)

  /**
   * load_acks for one node: the epoch the process last saw from it, at the id the table
   * holds for that epoch, else the row of the node, else nothing.
   */
  ghost predicate IsAckFor(table: AckTable, known: map<NodeId, Epoch>, n: NodeId, ack: Ack) {
    if n in known then
      ack == Ack(known[n], StoredId(table, known[n]))
    else if exists e :: e in table && table[e].node == n then
      exists e :: e in table && table[e].node == n && ack == Ack(e, table[e].id)
    else
      ack == NoAck
  }
}
