/**
 * One billing write: what of a cohort's bytes is submitted, and what the fenced
 * transaction makes of the users, their admins and the chart (app/jobs/record_usages.py).
 */
module FencedUsage {
  import opened MapSums
  import opened UsageAggregation

  type AdminId = nat

  datatype Owner = Nobody | OwnedBy(admin: AdminId)

  datatype UserRow = UserRow(owner: Owner, epoch: nat, used: nat)

  type Users = map<UserId, UserRow>
  type Epochs = map<UserId, nat>

  function EpochAt(epochs: Epochs, u: UserId): nat {
    if u in epochs then epochs[u] else 0
  }

  /** The user is gone, or was reset after the epochs were read. */
  predicate IsFenced(users: Users, epochs: Epochs, u: UserId) {
    u !in users || users[u].epoch != EpochAt(epochs, u)
  }

  // ------------------------------------------------------------- before the write

  datatype Prepared = AckOnly | Write(deltas: Totals, rows: ChartRows)

  /** The bytes of a cohort that reach the transaction, against one reading of the users. */
  ghost function Submittable(readings: seq<Reading>, context: Users, epochs: Epochs): Totals {
    Passing(UsageOf(readings), context, epochs)
  }

  function Passing(usage: Totals, context: Users, epochs: Epochs): Totals {
    map u | u in usage && !IsFenced(context, epochs, u) && usage[u] > 0 :: usage[u]
  }

  function DiscardUsers(readings: seq<Reading>, drop: set<UserId>): seq<Reading> {
    if readings == [] then
      []
    else
      var last := readings[|readings| - 1];
      DiscardUsers(readings[..|readings| - 1], drop) + [last.(params := DiscardParams(last.params, drop))]
  }

  function DiscardParams(params: seq<Param>, drop: set<UserId>): seq<Param> {
    if params == [] then
      []
    else
      var last := params[|params| - 1];
      DiscardParams(params[..|params| - 1], drop) + if last.uid in drop then [] else [last]
  }

  lemma {:induction false} DiscardParamsTotal(coeff: Coefficient, params: seq<Param>, drop: set<UserId>, u: UserId)
    ensures NodeTotal(coeff, DiscardParams(params, drop), u) == if u in drop then 0 else NodeTotal(coeff, params, u)
  {
    if params != [] {
      var rest, last := params[..|params| - 1], params[|params| - 1];
      DiscardParamsTotal(coeff, rest, drop, u);
      var kept := DiscardParams(rest, drop);
      if last.uid in drop {
        assert DiscardParams(params, drop) == kept;
      } else {
        assert (kept + [last])[..|kept|] == kept;
      }
    }
  }

  lemma {:induction false} DiscardTotals(readings: seq<Reading>, drop: set<UserId>, u: UserId, n: NodeId)
    ensures UserTotal(DiscardUsers(readings, drop), u) == if u in drop then 0 else UserTotal(readings, u)
    ensures RowValue(DiscardUsers(readings, drop), u, n) == if u in drop then 0 else RowValue(readings, u, n)
  {
    if readings != [] {
      var rest, last := readings[..|readings| - 1], readings[|readings| - 1];
      DiscardTotals(rest, drop, u, n);
      DiscardParamsTotal(last.coeff, last.params, drop, u);
      var kept := DiscardUsers(rest, drop);
      var all := DiscardUsers(readings, drop);
      assert all[..|all| - 1] == kept;
    }
  }

  ghost function KeptValue(readings: seq<Reading>, keep: set<UserId>, u: UserId, n: NodeId): nat {
    if u in keep then RowValue(readings, u, n) else 0
  }

  /** One row for each user kept and node with bytes, holding the user's bytes on that node, and no other row. */
  ghost predicate IsChartFor(rows: ChartRows, readings: seq<Reading>, keep: set<UserId>) {
    forall u: UserId, n: NodeId :: HoldsRow(rows, u, n, KeptValue(readings, keep, u, n))
  }

  ghost predicate PreparesWrite(p: Prepared, readings: seq<Reading>, context: Users, epochs: Epochs, chart: bool) {
    var deltas := Passing(UsageOf(readings), context, epochs);
    if deltas == map[] then
      p.AckOnly?
    else
      && p.Write?
      && p.deltas == deltas
      && IsChartFor(p.rows, readings, if chart then deltas.Keys else {})
      && (forall u :: u in deltas ==> ChartTotal(p.rows, u) == if chart then deltas[u] else 0)
  }

  /**
   * _persist_collected_usage_once up to the transaction: drop users without a row, drop
   * users reset since the poll, keep positive deltas, and prepare the chart rows.
   */
  method PrepareWrite(readings: seq<Reading>, context: Users, epochs: Epochs, chart: bool, poolReady: bool, executorWorks: bool)
    returns (p: Prepared)
    ensures PreparesWrite(p, readings, context, epochs, chart)
  {
    var usage := CalculateUsersUsage(readings, poolReady, executorWorks);
    assert usage == UsageOf(readings);
    var any, valid, reset, found := KeepValid(usage, context, epochs);
    if !any {
      return AckOnly;
    }
    var rows: ChartRows := map[];
    if chart {
      rows := ChartOfUsers(readings, usage, reset, found);
      assert forall u :: u in valid ==> u in found - reset;
      ChartOfFewer(rows, readings, found - reset, valid.Keys);
    } else {
      NoRows();
    }
    assert forall u :: u in valid ==> ChartTotal(rows, u) == if chart then valid[u] else 0;
    if valid != map[] || rows != map[] {
      p := Write(valid, rows);
    } else {
      p := AckOnly;
    }
  }

  /** The early returns and filters on the users; `any` is false where the code returns early. */
  method KeepValid(usage: Totals, context: Users, epochs: Epochs)
    returns (any: bool, valid: Totals, reset: set<UserId>, found: set<UserId>)
    ensures valid == Passing(usage, context, epochs)
    ensures !any ==> valid == map[]
    ensures found <= usage.Keys
    ensures forall u :: u in usage ==> (u in found && u !in reset <==> !IsFenced(context, epochs, u))
  {
    found := set u | u in usage && u in context;
    reset := set u | u in found && context[u].epoch != EpochAt(epochs, u);
    valid := map u | u in usage && u in found && u !in reset && usage[u] > 0 :: usage[u];
    any := usage != map[] && found != {} && usage - reset != map[];
    assert valid == Passing(usage, context, epochs);
    if !any {
      forall u
        ensures u !in valid
      {
        assert usage != map[] && found != {} ==> u !in usage - reset;
      }
    }
  }

  /** The rows of some users are those of fewer, where the others have none. */
  lemma ChartOfFewer(rows: ChartRows, readings: seq<Reading>, keep: set<UserId>, fewer: set<UserId>)
    requires IsChartFor(rows, readings, keep) && fewer <= keep && forall key :: key in rows ==> key.0 in fewer
    ensures IsChartFor(rows, readings, fewer)
  {
    forall u: UserId, n: NodeId
      ensures HoldsRow(rows, u, n, KeptValue(readings, fewer, u, n))
    {
      assert HoldsRow(rows, u, n, KeptValue(readings, keep, u, n));
    }
  }

  lemma NoRows()
    ensures forall u: UserId :: ChartTotal(map[], u) == 0
  {
    forall u: UserId
      ensures ChartTotal(map[], u) == 0
    {
      assert UserRows(map[], u) == map[];
    }
  }

  /** The chart rows of the users that were found and not reset. */
  method ChartOfUsers(readings: seq<Reading>, ghost usage: Totals, reset: set<UserId>, found: set<UserId>)
    returns (rows: ChartRows)
    requires IsUsageOf(usage, readings) && found <= usage.Keys
    ensures forall u: UserId :: ChartTotal(rows, u) == if u in found && u !in reset then usage[u] else 0
    ensures forall key :: key in rows ==> key.0 in usage && key.0 in found && key.0 !in reset && usage[key.0] > 0
    ensures IsChartFor(rows, readings, found - reset)
  {
    var kept := if reset == {} then readings else DiscardUsers(readings, reset);
    var unknown := UnknownUsers(kept, found);
    var filtered := DiscardUsers(kept, unknown);
    rows := PrepareChartRows(filtered);
    forall u: UserId
      ensures UserTotal(filtered, u) == if u in found && u !in reset then UserTotal(readings, u) else 0
      ensures ChartTotal(rows, u) == UserTotal(filtered, u)
    {
      DiscardTotals(readings, reset, u, 0);
      DiscardTotals(kept, unknown, u, 0);
      if u !in AllUids(kept) {
        UserTotalAbsent(kept, u);
      }
      ChartSumsToDelta(rows, filtered, u);
    }
    forall u: UserId, n: NodeId
      ensures HoldsRow(rows, u, n, KeptValue(readings, found - reset, u, n))
    {
      DiscardTotals(readings, reset, u, n);
      DiscardTotals(kept, unknown, u, n);
      if u !in AllUids(kept) {
        RowValueAbsent(kept, u, n);
      }
      assert HoldsRow(rows, u, n, RowValue(filtered, u, n));
    }
    forall key | key in rows
      ensures UserTotal(filtered, key.0) > 0
    {
      var mine := UserRows(rows, key.0);
      SumRemove(mine, key);
      assert HoldsRow(rows, key.0, key.1, RowValue(filtered, key.0, key.1));
    }
  }

  lemma {:induction false} RowValueAbsent(readings: seq<Reading>, u: UserId, n: NodeId)
    requires u !in AllUids(readings)
    ensures RowValue(readings, u, n) == 0
  {
    if readings != [] {
      var rest, last := readings[..|readings| - 1], readings[|readings| - 1];
      assert readings == rest + [last];
      AllUidsSnoc(rest, last);
      RowValueAbsent(rest, u, n);
      NodeTotalAbsent(last.coeff, last.params, u);
    }
  }

  method UnknownUsers(readings: seq<Reading>, found: set<UserId>) returns (unknown: set<UserId>)
    ensures unknown == AllUids(readings) - found
  {
    unknown := {};
    for i := 0 to |readings|
      invariant unknown == AllUids(readings[..i]) - found
    {
      assert readings[..i + 1] == readings[..i] + [readings[i]];
      AllUidsSnoc(readings[..i], readings[i]);
      unknown := unknown + (Uids(readings[i].params) - found);
    }
    assert readings[..|readings|] == readings;
  }

  /** Bytes read are submitted, or belong to users without a row, or to users reset since the poll. */
  lemma EveryByteIsAccountedFor(totals: Totals, context: Users, epochs: Epochs)
    ensures Sum(totals) == Sum(Passing(totals, context, epochs))
                           + Sum(totals - context.Keys)
                           + Sum(Only(totals, ResetUsers(context, epochs)))
  {
    var reset := ResetUsers(context, epochs);
    SumSplit(totals, context.Keys);
    var known := Only(totals, context.Keys);
    SumSplit(known, reset);
    assert Only(known, reset) == Only(totals, reset);
    LiveIsPassing(totals, context, epochs, known - reset);
  }

  /** Of the users found and not reset, those with bytes pass. */
  lemma LiveIsPassing(totals: Totals, context: Users, epochs: Epochs, live: Totals)
    requires live == Only(totals, context.Keys) - ResetUsers(context, epochs)
    ensures Sum(live) == Sum(Passing(totals, context, epochs))
  {
    var deltas := Passing(totals, context, epochs);
    SumSplit(live, deltas.Keys);
    assert Only(live, deltas.Keys) == deltas;
    SumOfZeros(live - deltas.Keys);
  }

  ghost function ResetUsers(context: Users, epochs: Epochs): set<UserId> {
    set u | u in context && context[u].epoch != EpochAt(epochs, u)
  }

  lemma {:induction false} SumOfZeros<K>(m: map<K, nat>)
    requires forall k :: k in m ==> m[k] == 0
    ensures Sum(m) == 0
    decreases |m|
  {
    if m != map[] {
      var k :| k in m;
      SumRemove(m, k);
      SumOfZeros(m - {k});
    }
  }

  // ------------------------------------------------------------------- the write

  function Billed(users: Users, epochs: Epochs, deltas: Totals): Totals {
    map u | u in deltas && !IsFenced(users, epochs, u) :: deltas[u]
  }

  function AfterBilling(users: Users, billed: Totals): Users {
    map u | u in users :: if u in billed then users[u].(used := users[u].used + billed[u]) else users[u]
  }

  ghost function OwnedPart(users: Users, billed: Totals, a: AdminId): Totals {
    map u | u in billed && u in users && users[u].owner == OwnedBy(a) :: billed[u]
  }

  ghost function BytesOf(users: Users, billed: Totals, a: AdminId): nat {
    Sum(OwnedPart(users, billed, a))
  }

  datatype Outcome = Outcome(
    users: Users, admins: map<AdminId, nat>, kept: ChartRows, fencedBytes: nat, billedUsers: set<UserId>)

  /** The whole meaning of a committed fenced write. */
  ghost predicate IsFencedWrite(o: Outcome, users: Users, admins: map<AdminId, nat>, deltas: Totals, rows: ChartRows, epochs: Epochs) {
    var billed := Billed(users, epochs, deltas);
    && o.users == AfterBilling(users, billed)
    && o.billedUsers == billed.Keys
    && o.fencedBytes + Sum(billed) == Sum(deltas)
    && o.admins.Keys == admins.Keys
    && (forall a :: a in admins ==> o.admins[a] == admins[a] + if a == 0 then 0 else BytesOf(users, billed, a))
    && (forall key :: key in o.kept <==> key in rows && !IsFenced(users, epochs, key.0))
    && (forall key :: key in o.kept ==> o.kept[key] == rows[key])
  }

  /** The body of the transaction in apply_fenced_user_usage, after the batches are settled. */
  method ApplyFencedUserUsage(users: Users, admins: map<AdminId, nat>, deltas: Totals, rows: ChartRows, epochs: Epochs)
    returns (o: Outcome)
    ensures IsFencedWrite(o, users, admins, deltas, rows, epochs)
  {
    var fenced := FencedAmong(users, deltas, rows, epochs);
    var fencedBytes := SumDeltas(deltas, fenced);
    var billable := deltas - fenced;
    FencedSplit(users, deltas, epochs, fenced);
    var kept := map key | key in rows && key.0 !in fenced :: rows[key];
    var afterAdmins := UpdateAdmins(admins, users, billable);
    var after := UpdateTraffic(users, billable, epochs);
    o := Outcome(after, afterAdmins, kept, fencedBytes, billable.Keys);
  }

  /** The fenced users among those of the deltas and the chart rows. */
  function FencedAmong(users: Users, deltas: Totals, rows: ChartRows, epochs: Epochs): (fenced: set<UserId>)
    ensures forall u :: u in deltas ==> (u in fenced <==> IsFenced(users, epochs, u))
    ensures forall key :: key in rows ==> (key.0 in fenced <==> IsFenced(users, epochs, key.0))
  {
    var locked := deltas.Keys + set key | key in rows :: key.0;
    set u | u in locked && IsFenced(users, epochs, u)
  }

  lemma FencedSplit(users: Users, deltas: Totals, epochs: Epochs, fenced: set<UserId>)
    requires forall u :: u in deltas ==> (u in fenced <==> IsFenced(users, epochs, u))
    ensures deltas - fenced == Billed(users, epochs, deltas)
    ensures Billed(users, epochs, deltas - fenced) == deltas - fenced
    ensures Sum(Only(deltas, fenced)) + Sum(Billed(users, epochs, deltas)) == Sum(deltas)
  {
    assert deltas - fenced == Billed(users, epochs, deltas);
    SumSplit(deltas, fenced);
  }

  method UpdateAdmins(admins: map<AdminId, nat>, users: Users, billable: Totals) returns (after: map<AdminId, nat>)
    requires billable.Keys <= users.Keys
    ensures after.Keys == admins.Keys
    ensures forall a :: a in admins ==> after[a] == admins[a] + if a == 0 then 0 else BytesOf(users, billable, a)
  {
    var totals := AdminTotals(users, billable);
    after := map a | a in admins :: admins[a] + if a in totals then totals[a] else 0;
  }

  /** fenced_user_traffic_updates: adds where both the user and its epoch match, and nowhere else. */
  method UpdateTraffic(users: Users, billable: Totals, epochs: Epochs) returns (after: Users)
    ensures after == AfterBilling(users, Billed(users, epochs, billable))
  {
    after := users;
    var todo := billable.Keys;
    while todo != {}
      invariant todo <= billable.Keys
      invariant after == AfterBilling(users, Billed(users, epochs, billable - todo))
    {
      var u :| u in todo;
      BilledOneMore(users, epochs, billable, todo, u);
      if u in after && after[u].epoch == EpochAt(epochs, u) {
        after := after[u := after[u].(used := after[u].used + billable[u])];
      }
      todo := todo - {u};
    }
    assert billable - todo == billable;
  }

  lemma BilledOneMore(users: Users, epochs: Epochs, billable: Totals, todo: set<UserId>, u: UserId)
    requires u in todo && u in billable
    ensures var before := AfterBilling(users, Billed(users, epochs, billable - todo));
      AfterBilling(users, Billed(users, epochs, billable - (todo - {u}))) ==
        if IsFenced(users, epochs, u) then before else before[u := users[u].(used := users[u].used + billable[u])]
    ensures u in users ==> AfterBilling(users, Billed(users, epochs, billable - todo))[u] == users[u]
  {
  }

  method SumDeltas(deltas: Totals, part: set<UserId>) returns (bytes: nat)
    ensures bytes == Sum(Only(deltas, part))
  {
    bytes := 0;
    var todo := deltas.Keys * part;
    ghost var done: Totals := map[];
    while todo != {}
      invariant todo <= deltas.Keys * part
      invariant done.Keys == deltas.Keys * part - todo
      invariant forall u :: u in done ==> done[u] == deltas[u]
      invariant bytes == Sum(done)
    {
      var u :| u in todo;
      SumUpdate(done, u, deltas[u]);
      done := done[u := deltas[u]];
      bytes := bytes + deltas[u];
      todo := todo - {u};
    }
    assert done == Only(deltas, part);
  }

  /** Each admin with an id gets exactly the bytes of its own billed users. */
  method AdminTotals(users: Users, billable: Totals) returns (totals: map<AdminId, nat>)
    requires billable.Keys <= users.Keys
    ensures IsAdminTotals(totals, users, billable)
  {
    totals := map[];
    var todo := billable.Keys;
    ghost var done: Totals := map[];
    forall a: AdminId
      ensures BytesOf(users, done, a) == 0
    {
      assert OwnedPart(users, done, a) == map[];
    }
    while todo != {}
      invariant todo <= billable.Keys
      invariant done.Keys == billable.Keys - todo
      invariant forall u :: u in done ==> done[u] == billable[u]
      invariant IsAdminTotals(totals, users, done)
    {
      var u :| u in todo;
      totals := AddToAdmin(totals, users, done, u, billable[u]);
      done := done[u := billable[u]];
      todo := todo - {u};
    }
    assert done == billable;
  }

  ghost predicate IsAdminTotals(totals: map<AdminId, nat>, users: Users, billed: Totals) {
    && 0 !in totals
    && forall a: AdminId :: a != 0 ==> (if a in totals then totals[a] else 0) == BytesOf(users, billed, a)
  }

  method AddToAdmin(totals: map<AdminId, nat>, users: Users, ghost done: Totals, u: UserId, value: nat)
    returns (more: map<AdminId, nat>)
    requires u in users && u !in done
    requires IsAdminTotals(totals, users, done)
    ensures IsAdminTotals(more, users, done[u := value])
  {
    more := totals;
    if users[u].owner.OwnedBy? && users[u].owner.admin != 0 {
      var a := users[u].owner.admin;
      more := totals[a := (if a in totals then totals[a] else 0) + value];
    }
    forall a: AdminId | a != 0
      ensures (if a in more then more[a] else 0) == BytesOf(users, done[u := value], a)
    {
      BytesOfMore(users, done, u, value, a);
    }
  }

  lemma BytesOfMore(users: Users, done: Totals, u: UserId, value: nat, a: AdminId)
    requires u in users && u !in done
    ensures BytesOf(users, done[u := value], a) ==
            BytesOf(users, done, a) + if users[u].owner == OwnedBy(a) then value else 0
  {
    var more := done[u := value];
    var before, after := OwnedPart(users, done, a), OwnedPart(users, more, a);
    if users[u].owner == OwnedBy(a) {
      SumUpdate(before, u, value);
      assert after == before[u := value];
    } else {
      assert after == before;
    }
  }

  // ------------------------------------------------------- across the whole write

  ghost function Counters(users: Users): Totals {
    map u | u in users :: users[u].used
  }

  ghost function TotalUsed(users: Users): nat {
    Sum(Counters(users))
  }

  /** The users' counters grow by exactly the billed bytes, no more and no less. */
  lemma {:induction false} BillingConserves(users: Users, billed: Totals)
    requires billed.Keys <= users.Keys
    ensures TotalUsed(AfterBilling(users, billed)) == TotalUsed(users) + Sum(billed)
    decreases |billed|
  {
    if billed == map[] {
      assert AfterBilling(users, billed) == users;
    } else {
      var u :| u in billed;
      var rest := billed - {u};
      BillingConserves(users, rest);
      SumRemove(billed, u);
      var less, more := AfterBilling(users, rest), AfterBilling(users, billed);
      SumUpdate(Counters(less), u, more[u].used);
      assert Counters(more) == Counters(less)[u := more[u].used];
    }
  }

  /**
   * With the chart on, a committed write leaves for each billed user one row for each node
   * with the user's bytes there, which sum over the nodes to exactly the bytes billed, and no
   * row for anybody else.
   */
  lemma ChartMatchesBill(p: Prepared, o: Outcome, readings: seq<Reading>, context: Users, users: Users, admins: map<AdminId, nat>, epochs: Epochs)
    requires PreparesWrite(p, readings, context, epochs, true) && p.Write?
    requires IsFencedWrite(o, users, admins, p.deltas, p.rows, epochs)
    ensures forall u: UserId ::
              ChartTotal(o.kept, u) == if u in o.billedUsers then UserTotal(readings, u) else 0
    ensures IsChartFor(o.kept, readings, o.billedUsers)
    ensures forall u :: u in o.billedUsers ==> o.users[u].used == users[u].used + UserTotal(readings, u)
  {
    forall u: UserId
      ensures ChartTotal(o.kept, u) == if u in o.billedUsers then UserTotal(readings, u) else 0
    {
      KeptChart(o.kept, p.rows, users, epochs, u);
      assert forall n: NodeId :: (u, n) in p.rows ==> HoldsRow(p.rows, u, n, KeptValue(readings, p.deltas.Keys, u, n));
    }
    forall u: UserId, n: NodeId
      ensures HoldsRow(o.kept, u, n, KeptValue(readings, o.billedUsers, u, n))
    {
      assert HoldsRow(p.rows, u, n, KeptValue(readings, p.deltas.Keys, u, n));
    }
  }

  lemma KeptChart(kept: ChartRows, rows: ChartRows, users: Users, epochs: Epochs, u: UserId)
    requires forall key :: key in kept <==> key in rows && !IsFenced(users, epochs, key.0)
    requires forall key :: key in kept ==> kept[key] == rows[key]
    ensures ChartTotal(kept, u) == if IsFenced(users, epochs, u) then 0 else ChartTotal(rows, u)
    ensures (forall key :: key in rows ==> key.0 != u) ==> ChartTotal(rows, u) == 0
  {
    if IsFenced(users, epochs, u) {
      assert UserRows(kept, u) == map[];
    } else {
      assert UserRows(kept, u) == UserRows(rows, u);
    }
    if forall key :: key in rows ==> key.0 != u {
      assert UserRows(rows, u) == map[];
    }
  }
}
