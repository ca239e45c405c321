/**
 * Folding what the nodes reported into one byte delta per user, and into the
 * chart rows per user and node (app/jobs/record_usages.py).
 */
module UsageAggregation {
  import opened MapSums

  type UserId = nat
  type NodeId = nat

  /** A node's usage coefficient, as the function it applies to a raw byte count. */
  type Coefficient = nat -> nat

  datatype Param = Param(uid: UserId, value: nat)

  /** What one node returned for one poll. */
  datatype Reading = Reading(node: NodeId, coeff: Coefficient, params: seq<Param>)

  type Totals = map<UserId, nat>
  type ChartRows = map<(UserId, NodeId), nat>

  const SYNC_LIMIT: nat := 1000
  const DIRECT_MERGE_LIMIT: nat := 4

  function Get(m: Totals, u: UserId): nat {
    if u in m then m[u] else 0
  }

  function Uids(params: seq<Param>): set<UserId> {
    set p | p in params :: p.uid
  }

  ghost function AllUids(readings: seq<Reading>): set<UserId> {
    set r, p | r in readings && p in r.params :: p.uid
  }

  /** Bytes one reading holds for a user, after the coefficient. */
  function NodeTotal(coeff: Coefficient, params: seq<Param>, u: UserId): nat {
    if params == [] then
      0
    else
      var last := params[|params| - 1];
      NodeTotal(coeff, params[..|params| - 1], u) + if last.uid == u then coeff(last.value) else 0
  }

  /** Bytes a list of readings holds for a user: the sequential fold. */
  ghost function UserTotal(readings: seq<Reading>, u: UserId): nat {
    if readings == [] then
      0
    else
      var last := readings[|readings| - 1];
      UserTotal(readings[..|readings| - 1], u) + NodeTotal(last.coeff, last.params, u)
  }

  /** The reference meaning of every aggregation path below. */
  ghost predicate IsUsageOf(totals: Totals, readings: seq<Reading>) {
    && totals.Keys == AllUids(readings)
    && forall u :: u in totals ==> totals[u] == UserTotal(readings, u)
  }

  lemma {:induction false} NodeTotalAbsent(coeff: Coefficient, params: seq<Param>, u: UserId)
    requires u !in Uids(params)
    ensures NodeTotal(coeff, params, u) == 0
  {
    if params != [] {
      var n := |params| - 1;
      assert params[n] in params;
      assert Uids(params[..n]) <= Uids(params);
      NodeTotalAbsent(coeff, params[..n], u);
    }
  }

  lemma {:induction false} UserTotalAbsent(readings: seq<Reading>, u: UserId)
    requires u !in AllUids(readings)
    ensures UserTotal(readings, u) == 0
  {
    if readings != [] {
      var n := |readings| - 1;
      assert readings[n] in readings;
      assert forall p :: p in readings[n].params ==> p.uid in AllUids(readings);
      NodeTotalAbsent(readings[n].coeff, readings[n].params, u);
      assert AllUids(readings[..n]) <= AllUids(readings);
      UserTotalAbsent(readings[..n], u);
    }
  }

  ghost function UsageOf(readings: seq<Reading>): (totals: Totals)
    ensures IsUsageOf(totals, readings)
  {
    map u | u in AllUids(readings) :: UserTotal(readings, u)
  }

  lemma NodeTotalSnoc(coeff: Coefficient, params: seq<Param>, p: Param, u: UserId)
    ensures NodeTotal(coeff, params + [p], u) == NodeTotal(coeff, params, u) + if p.uid == u then coeff(p.value) else 0
  {
    assert (params + [p])[..|params|] == params;
  }

  /** One more param on totals that hold the ones before it. */
  lemma AddOneParam(start: Totals, totals: Totals, coeff: Coefficient, params: seq<Param>, p: Param)
    requires HasAdded(start, totals, coeff, params)
    ensures HasAdded(start, totals[p.uid := Get(totals, p.uid) + coeff(p.value)], coeff, params + [p])
  {
    var all, next := params + [p], totals[p.uid := Get(totals, p.uid) + coeff(p.value)];
    assert all[|params|] == p && forall q :: q in params ==> q in all;
    forall u | u in next
      ensures next[u] == Get(start, u) + NodeTotal(coeff, all, u)
    {
      NodeTotalSnoc(coeff, params, p, u);
      if u !in totals {
        NodeTotalAbsent(coeff, params, u);
      }
    }
  }

  ghost predicate HasAdded(start: Totals, totals: Totals, coeff: Coefficient, params: seq<Param>) {
    && totals.Keys == start.Keys + Uids(params)
    && forall u :: u in totals ==> totals[u] == Get(start, u) + NodeTotal(coeff, params, u)
  }

  /** Adds one reading's params to running totals, as the inner loop of both paths does. */
  method AddParams(start: Totals, r: Reading) returns (totals: Totals)
    ensures totals.Keys == start.Keys + Uids(r.params)
    ensures forall u :: u in totals ==> totals[u] == Get(start, u) + NodeTotal(r.coeff, r.params, u)
  {
    totals := start;
    for i := 0 to |r.params|
      invariant HasAdded(start, totals, r.coeff, r.params[..i])
    {
      var p := r.params[i];
      AddOneParam(start, totals, r.coeff, r.params[..i], p);
      assert r.params[..i + 1] == r.params[..i] + [p];
      totals := totals[p.uid := Get(totals, p.uid) + r.coeff(p.value)];
    }
    assert r.params[..|r.params|] == r.params;
  }

  /** _process_usage_sync. */
  method ProcessUsageSync(chunks: seq<Reading>) returns (totals: Totals)
    ensures IsUsageOf(totals, chunks)
  {
    totals := map[];
    for i := 0 to |chunks|
      invariant IsUsageOf(totals, chunks[..i])
    {
      var before := totals;
      totals := AddParams(totals, chunks[i]);
      assert chunks[..i + 1][..i] == chunks[..i];
      AllUidsSnoc(chunks[..i], chunks[i]);
      assert chunks[..i + 1] == chunks[..i] + [chunks[i]];
      forall u | u in totals
        ensures totals[u] == UserTotal(chunks[..i + 1], u)
      {
        if u !in before {
          UserTotalAbsent(chunks[..i], u);
        }
      }
    }
    assert chunks[..|chunks|] == chunks;
  }

  lemma AllUidsSnoc(readings: seq<Reading>, r: Reading)
    ensures AllUids(readings + [r]) == AllUids(readings) + Uids(r.params)
  {
    var all := readings + [r];
    assert all[|readings|] == r;
    forall u | u in AllUids(readings) + Uids(r.params)
      ensures u in AllUids(all)
    {
      if u in Uids(r.params) {
        var p :| p in r.params && p.uid == u;
        assert r in all && p in r.params;
      } else {
        var q, p :| q in readings && p in q.params && p.uid == u;
        assert q in all && p in q.params;
      }
    }
  }

  /** _process_node_chunk. */
  method ProcessNodeChunk(r: Reading) returns (usage: Totals)
    ensures usage.Keys == Uids(r.params)
    ensures forall u :: u in usage ==> usage[u] == NodeTotal(r.coeff, r.params, u)
  {
    usage := AddParams(map[], r);
  }

  ghost function MergedAt(dicts: seq<Totals>, u: UserId): nat {
    if dicts == [] then
      0
    else
      MergedAt(dicts[..|dicts| - 1], u) + Get(dicts[|dicts| - 1], u)
  }

  ghost function MergedKeys(dicts: seq<Totals>): set<UserId> {
    set d, u | d in dicts && u in d :: u
  }

  ghost predicate IsMergeOf(merged: Totals, dicts: seq<Totals>) {
    && merged.Keys == MergedKeys(dicts)
    && forall u :: u in merged ==> merged[u] == MergedAt(dicts, u)
  }

  lemma {:induction false} MergedAbsent(dicts: seq<Totals>, u: UserId)
    requires u !in MergedKeys(dicts)
    ensures MergedAt(dicts, u) == 0
  {
    if dicts != [] {
      var n := |dicts| - 1;
      assert dicts[n] in dicts;
      assert MergedKeys(dicts[..n]) <= MergedKeys(dicts);
      MergedAbsent(dicts[..n], u);
    }
  }

  lemma MergedKeysSnoc(dicts: seq<Totals>, d: Totals)
    ensures MergedKeys(dicts + [d]) == MergedKeys(dicts) + d.Keys
  {
    assert (dicts + [d])[|dicts|] == d;
    assert forall e :: e in dicts ==> e in dicts + [d];
  }

  /** _merge_usage_dicts: the items of each dict are visited in some order. */
  method MergeUsageDicts(dicts: seq<Totals>) returns (merged: Totals)
    ensures IsMergeOf(merged, dicts)
  {
    merged := map[];
    for i := 0 to |dicts|
      invariant IsMergeOf(merged, dicts[..i])
    {
      var before := merged;
      var d := dicts[i];
      var todo := d.Keys;
      while todo != {}
        invariant todo <= d.Keys
        invariant merged.Keys == before.Keys + (d.Keys - todo)
        invariant forall u :: u in merged ==>
                    merged[u] == Get(before, u) + if u in todo then 0 else Get(d, u)
      {
        var u :| u in todo;
        merged := merged[u := Get(merged, u) + d[u]];
        todo := todo - {u};
      }
      assert dicts[..i + 1] == dicts[..i] + [d];
      assert dicts[..i + 1][..i] == dicts[..i];
      MergedKeysSnoc(dicts[..i], d);
      forall u | u in merged
        ensures merged[u] == MergedAt(dicts[..i + 1], u)
      {
        if u !in before {
          MergedAbsent(dicts[..i], u);
        }
      }
    }
    assert dicts[..|dicts|] == dicts;
  }

  lemma {:induction false} MergedAtConcat(a: seq<Totals>, b: seq<Totals>, u: UserId)
    ensures MergedAt(a + b, u) == MergedAt(a, u) + MergedAt(b, u)
  {
    if b == [] {
      assert a + b == a;
    } else {
      var n := |b| - 1;
      assert (a + b)[..|a + b| - 1] == a + b[..n];
      MergedAtConcat(a, b[..n], u);
    }
  }

  ghost function Flatten(groups: seq<seq<Totals>>): seq<Totals> {
    if groups == [] then [] else Flatten(groups[..|groups| - 1]) + groups[|groups| - 1]
  }

  /** Merging group by group, for any grouping, means the same as merging everything at once. */
  lemma {:induction false} AnyGroupingMerges(groups: seq<seq<Totals>>, partials: seq<Totals>, merged: Totals)
    requires |partials| == |groups|
    requires forall i :: 0 <= i < |groups| ==> IsMergeOf(partials[i], groups[i])
    requires IsMergeOf(merged, partials)
    ensures IsMergeOf(merged, Flatten(groups))
  {
    forall u: UserId
      ensures MergedAt(partials, u) == MergedAt(Flatten(groups), u)
      ensures u in MergedKeys(partials) <==> u in MergedKeys(Flatten(groups))
    {
      GroupingAt(groups, partials, u);
    }
  }

  lemma {:induction false} GroupingAt(groups: seq<seq<Totals>>, partials: seq<Totals>, u: UserId)
    requires |partials| == |groups|
    requires forall i :: 0 <= i < |groups| ==> IsMergeOf(partials[i], groups[i])
    ensures MergedAt(partials, u) == MergedAt(Flatten(groups), u)
    ensures u in MergedKeys(partials) <==> u in MergedKeys(Flatten(groups))
  {
    if groups != [] {
      var n := |groups| - 1;
      GroupingAt(groups[..n], partials[..n], u);
      MergedAtConcat(Flatten(groups[..n]), groups[n], u);
      if u !in partials[n] {
        MergedAbsent(groups[n], u);
      }
      assert partials == partials[..n] + [partials[n]];
      MergedKeysSnoc(partials[..n], partials[n]);
      MergedKeysConcat(Flatten(groups[..n]), groups[n]);
    }
  }

  lemma MergedKeysConcat(a: seq<Totals>, b: seq<Totals>)
    ensures MergedKeys(a + b) == MergedKeys(a) + MergedKeys(b)
  {
    assert forall d :: d in a || d in b ==> d in a + b;
  }

  /** A dict per chunk merges to the sequential fold over the chunks. */
  lemma {:induction false} ChunkDictsMerge(chunks: seq<Reading>, dicts: seq<Totals>, u: UserId)
    requires |dicts| == |chunks|
    requires forall i :: 0 <= i < |chunks| ==>
               && dicts[i].Keys == Uids(chunks[i].params)
               && forall v :: v in dicts[i] ==> dicts[i][v] == NodeTotal(chunks[i].coeff, chunks[i].params, v)
    ensures MergedAt(dicts, u) == UserTotal(chunks, u)
    ensures u in MergedKeys(dicts) <==> u in AllUids(chunks)
  {
    if chunks != [] {
      var n := |chunks| - 1;
      ChunkDictsMerge(chunks[..n], dicts[..n], u);
      if u !in dicts[n] {
        NodeTotalAbsent(chunks[n].coeff, chunks[n].params, u);
      }
      assert dicts == dicts[..n] + [dicts[n]];
      assert chunks == chunks[..n] + [chunks[n]];
      MergedKeysSnoc(dicts[..n], dicts[n]);
      AllUidsSnoc(chunks[..n], chunks[n]);
    }
  }

  function ParamCount(chunks: seq<Reading>): nat {
    if chunks == [] then 0 else ParamCount(chunks[..|chunks| - 1]) + |chunks[|chunks| - 1].params|
  }

  /** The executor path: one dict per chunk, merged in at most a few groups and then once more. */
  method ProcessUsageSharded(chunks: seq<Reading>) returns (totals: Totals)
    ensures IsUsageOf(totals, chunks)
  {
    var dicts: seq<Totals> := [];
    for i := 0 to |chunks|
      invariant |dicts| == i
      invariant forall j :: 0 <= j < i ==>
                  && dicts[j].Keys == Uids(chunks[j].params)
                  && forall v :: v in dicts[j] ==> dicts[j][v] == NodeTotal(chunks[j].coeff, chunks[j].params, v)
    {
      var d := ProcessNodeChunk(chunks[i]);
      dicts := dicts + [d];
    }
    if |dicts| > DIRECT_MERGE_LIMIT {
      var size := if |dicts| / 4 > 1 then |dicts| / 4 else 1;
      totals := MergeInGroups(dicts, size);
    } else {
      totals := MergeUsageDicts(dicts);
    }
    forall u: UserId
      ensures MergedAt(dicts, u) == UserTotal(chunks, u)
      ensures u in MergedKeys(dicts) <==> u in AllUids(chunks)
    {
      ChunkDictsMerge(chunks, dicts, u);
    }
  }

  method MergeInGroups(dicts: seq<Totals>, size: nat) returns (merged: Totals)
    requires size > 0
    ensures IsMergeOf(merged, dicts)
  {
    var partials: seq<Totals> := [];
    ghost var groups: seq<seq<Totals>> := [];
    var at := 0;
    while at < |dicts|
      invariant 0 <= at <= |dicts|
      invariant |partials| == |groups|
      invariant forall i :: 0 <= i < |groups| ==> IsMergeOf(partials[i], groups[i])
      invariant Flatten(groups) == dicts[..at]
    {
      var end := if at + size < |dicts| then at + size else |dicts|;
      var partial := MergeUsageDicts(dicts[at..end]);
      partials := partials + [partial];
      ghost var next := groups + [dicts[at..end]];
      assert next[..|next| - 1] == groups;
      groups := next;
      at := end;
    }
    assert dicts[..at] == dicts;
    merged := MergeUsageDicts(partials);
    AnyGroupingMerges(groups, partials, merged);
  }

  function WithParams(readings: seq<Reading>): (chunks: seq<Reading>) {
    if readings == [] then
      []
    else
      var last := readings[|readings| - 1];
      WithParams(readings[..|readings| - 1]) + if last.params == [] then [] else [last]
  }

  lemma UserTotalSnoc(readings: seq<Reading>, r: Reading, u: UserId)
    ensures UserTotal(readings + [r], u) == UserTotal(readings, u) + NodeTotal(r.coeff, r.params, u)
  {
    assert (readings + [r])[..|readings|] == readings;
  }

  lemma {:induction false} WithParamsMeansTheSame(readings: seq<Reading>, u: UserId)
    ensures UserTotal(WithParams(readings), u) == UserTotal(readings, u)
    ensures u in AllUids(WithParams(readings)) <==> u in AllUids(readings)
  {
    if readings != [] {
      var rest, last := readings[..|readings| - 1], readings[|readings| - 1];
      WithParamsMeansTheSame(rest, u);
      assert readings == rest + [last];
      AllUidsSnoc(rest, last);
      UserTotalSnoc(rest, last, u);
      if last.params == [] {
        assert WithParams(readings) == WithParams(rest);
      } else {
        assert WithParams(readings) == WithParams(rest) + [last];
        AllUidsSnoc(WithParams(rest), last);
        UserTotalSnoc(WithParams(rest), last, u);
      }
    }
  }

  /**
   * calculate_users_usage. The thread pool may be unavailable, and the executor
   * may fail; every path gives the totals of the sequential fold.
   */
  method CalculateUsersUsage(readings: seq<Reading>, poolReady: bool, executorWorks: bool)
    returns (totals: Totals)
    ensures IsUsageOf(totals, readings)
  {
    var chunks := WithParams(readings);
    forall u: UserId
      ensures UserTotal(chunks, u) == UserTotal(readings, u)
      ensures u in AllUids(chunks) <==> u in AllUids(readings)
    {
      WithParamsMeansTheSame(readings, u);
    }
    if chunks == [] {
      totals := map[];
    } else if ParamCount(chunks) < SYNC_LIMIT || !poolReady || !executorWorks {
      totals := ProcessUsageSync(chunks);
    } else {
      totals := ProcessUsageSharded(chunks);
    }
  }

  // ---------------------------------------------------------------- chart rows

  /** The bytes the chart shows for a user: its rows summed over the nodes. */
  ghost function ChartTotal(rows: ChartRows, u: UserId): nat {
    Sum(UserRows(rows, u))
  }

  ghost function UserRows(rows: ChartRows, u: UserId): ChartRows {
    map key | key in rows && key.0 == u :: rows[key]
  }

  /** Bytes of one user read from one node. */
  ghost function RowValue(readings: seq<Reading>, u: UserId, n: NodeId): nat {
    if readings == [] then
      0
    else
      var last := readings[|readings| - 1];
      RowValue(readings[..|readings| - 1], u, n) + if last.node == n then NodeTotal(last.coeff, last.params, u) else 0
  }

  ghost predicate HoldsRow(rows: ChartRows, u: UserId, n: NodeId, value: nat) {
    if (u, n) in rows then rows[(u, n)] == value > 0 else value == 0
  }

  ghost predicate IsChartOf(rows: ChartRows, readings: seq<Reading>) {
    forall u: UserId, n: NodeId :: HoldsRow(rows, u, n, RowValue(readings, u, n))
  }

  /** _prepare_node_user_usage_params: one row per user and node with bytes. */
  method PrepareChartRows(readings: seq<Reading>) returns (rows: ChartRows)
    ensures IsChartOf(rows, readings)
  {
    rows := map[];
    for i := 0 to |readings|
      invariant IsChartOf(rows, readings[..i])
    {
      rows := AddChartParams(rows, readings[..i], readings[i]);
      assert readings[..i + 1] == readings[..i] + [readings[i]];
    }
    assert readings[..|readings|] == readings;
  }

  method AddChartParams(start: ChartRows, ghost readings: seq<Reading>, r: Reading) returns (rows: ChartRows)
    requires IsChartOf(start, readings)
    ensures IsChartOf(rows, readings + [r])
  {
    rows := start;
    for k := 0 to |r.params|
      invariant forall u: UserId, n: NodeId ::
                  HoldsRow(rows, u, n, RowValue(readings, u, n)
                    + if r.node == n then NodeTotal(r.coeff, r.params[..k], u) else 0)
    {
      var p := r.params[k];
      assert r.params[..k + 1][..k] == r.params[..k];
      var value := r.coeff(p.value);
      var key := (p.uid, r.node);
      assert HoldsRow(rows, p.uid, r.node,
                      RowValue(readings, p.uid, r.node) + NodeTotal(r.coeff, r.params[..k], p.uid));
      if value != 0 {
        rows := rows[key := (if key in rows then rows[key] else 0) + value];
      }
    }
    assert r.params[..|r.params|] == r.params;
    assert (readings + [r])[..|readings|] == readings;
  }

  /** The chart rows of a user sum over the nodes to exactly the user's delta. */
  lemma ChartSumsToDelta(rows: ChartRows, readings: seq<Reading>, u: UserId)
    requires IsChartOf(rows, readings)
    ensures ChartTotal(rows, u) == UserTotal(readings, u)
  {
    var mine := UserRows(rows, u);
    forall n: NodeId
      ensures HoldsRow(mine, u, n, RowValue(readings, u, n))
    {
      assert HoldsRow(rows, u, n, RowValue(readings, u, n));
    }
    UserRowsSum(mine, readings, u);
  }

  lemma {:induction false} UserRowsSum(mine: ChartRows, readings: seq<Reading>, u: UserId)
    requires forall key :: key in mine ==> key.0 == u
    requires forall n: NodeId :: HoldsRow(mine, u, n, RowValue(readings, u, n))
    ensures Sum(mine) == UserTotal(readings, u)
  {
    if readings == [] {
      forall key: (UserId, NodeId)
        ensures key !in mine
      {
        assert HoldsRow(mine, u, key.1, RowValue(readings, u, key.1));
        assert key.0 == u ==> key == (u, key.1);
      }
      assert mine == map[];
    } else {
      var rest, last := readings[..|readings| - 1], readings[|readings| - 1];
      var key := (u, last.node);
      var value := RowValue(rest, u, last.node);
      assert HoldsRow(mine, u, last.node, RowValue(readings, u, last.node));
      var fewer := if value == 0 then mine - {key} else mine[key := value];
      forall n: NodeId
        ensures HoldsRow(fewer, u, n, RowValue(rest, u, n))
      {
        assert HoldsRow(mine, u, n, RowValue(readings, u, n));
      }
      UserRowsSum(fewer, rest, u);
      if value != 0 {
        SumUpdate(mine, key, value);
      } else if key in mine {
        SumRemove(mine, key);
      } else {
        assert fewer == mine;
      }
    }
  }
}
