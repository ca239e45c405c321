/**
 * The node-usage job (app/jobs/record_usages.py): traffic read from the nodes is written
 * together with the backlog of earlier ticks, or kept as backlog.
 */
module NodeUsage {
  import opened NatSets

  type NodeId = nat

  const MAX_ATTEMPTS: nat := 10

  datatype Traffic = Traffic(up: nat, down: nat)

  type Totals = map<NodeId, Traffic>

  /** Traffic read in one tick and not written yet; the tick number is history. */
  datatype Backlog = Backlog(totals: Totals, attempts: nat, tick: nat)

  datatype Direction = Up | Down

  const NONE := Traffic(0, 0)

  function Bytes(t: Traffic, d: Direction): nat {
    match d
    case Up => t.up
    case Down => t.down
  }

  /** The bytes a map of totals holds for a node, one way. */
  function Get(m: Totals, n: NodeId, d: Direction): nat {
    if n in m then Bytes(m[n], d) else 0
  }

  /** The bytes of some of the nodes of a map of totals, one way. */
  ghost function Over(m: Totals, nodes: set<NodeId>, d: Direction): nat {
    if nodes == {} then
      0
    else
      var n :| n in nodes;
      Get(m, n, d) + Over(m, nodes - {n}, d)
  }

  /** All the bytes of a map of totals, one way. */
  ghost function Total(m: Totals, d: Direction): nat {
    Over(m, m.Keys, d)
  }

  ghost function TotalOfAll(parts: seq<Totals>, d: Direction): nat {
    if parts == [] then 0 else TotalOfAll(parts[..|parts| - 1], d) + Total(parts[|parts| - 1], d)
  }

  ghost function At(parts: seq<Totals>, n: NodeId, d: Direction): nat {
    if parts == [] then 0 else At(parts[..|parts| - 1], n, d) + Get(parts[|parts| - 1], n, d)
  }

  predicate IsPositive(totals: Totals) {
    forall n :: n in totals ==> totals[n] != NONE
  }

  /** Each node's traffic added up over the parts, nodes without traffic left out. */
  ghost predicate IsSumOf(totals: Totals, parts: seq<Totals>) {
    && IsPositive(totals)
    && (forall n: NodeId, d :: Get(totals, n, d) == At(parts, n, d))
    && forall d :: Total(totals, d) == TotalOfAll(parts, d)
  }

  lemma {:induction false} OverRemove(m: Totals, nodes: set<NodeId>, n: NodeId, d: Direction)
    requires n in nodes
    ensures Over(m, nodes, d) == Get(m, n, d) + Over(m, nodes - {n}, d)
  {
    var k :| k in nodes && Over(m, nodes, d) == Get(m, k, d) + Over(m, nodes - {k}, d);
    if k != n {
      OverRemove(m, nodes - {k}, n, d);
      OverRemove(m, nodes - {n}, k, d);
      assert nodes - {k} - {n} == nodes - {n} - {k};
    }
  }

  lemma {:induction false} OverOfSum(m: Totals, a: Totals, b: Totals, nodes: set<NodeId>, d: Direction)
    requires forall n :: n in nodes ==> Get(m, n, d) == Get(a, n, d) + Get(b, n, d)
    ensures Over(m, nodes, d) == Over(a, nodes, d) + Over(b, nodes, d)
  {
    if nodes != {} {
      var n :| n in nodes;
      OverRemove(m, nodes, n, d);
      OverRemove(a, nodes, n, d);
      OverRemove(b, nodes, n, d);
      OverOfSum(m, a, b, nodes - {n}, d);
    }
  }

  lemma {:induction false} OverOfNone(m: Totals, some: set<NodeId>, all: set<NodeId>, d: Direction)
    requires some <= all
    requires forall n :: n in all && n !in some ==> Get(m, n, d) == 0
    ensures Over(m, some, d) == Over(m, all, d)
    decreases all
  {
    if n :| n in all && n !in some {
      OverRemove(m, all, n, d);
      OverOfNone(m, some, all - {n}, d);
    } else {
      assert some == all;
    }
  }

  lemma TotalOfSum(m: Totals, a: Totals, b: Totals, d: Direction)
    requires m.Keys <= a.Keys + b.Keys
    requires forall n: NodeId :: Get(m, n, d) == Get(a, n, d) + Get(b, n, d)
    ensures Total(m, d) == Total(a, d) + Total(b, d)
  {
    var all := a.Keys + b.Keys;
    OverOfSum(m, a, b, all, d);
    OverOfNone(m, m.Keys, all, d);
    OverOfNone(a, a.Keys, all, d);
    OverOfNone(b, b.Keys, all, d);
  }

  function Plus(a: Traffic, b: Traffic): Traffic {
    Traffic(a.up + b.up, a.down + b.down)
  }

  function AddAt(m: Totals, n: NodeId, t: Traffic): Totals {
    m[n := if n in m then Plus(m[n], t) else t]
  }

  /** The inner loop of _sum_node_totals. */
  method AddTotals(start: Totals, part: Totals) returns (merged: Totals)
    ensures merged.Keys == start.Keys + part.Keys
    ensures forall n: NodeId, d :: Get(merged, n, d) == Get(start, n, d) + Get(part, n, d)
  {
    merged := start;
    var todo := part.Keys;
    while todo != {}
      invariant todo <= part.Keys
      invariant merged.Keys == start.Keys + (part.Keys - todo)
      invariant forall n: NodeId, d ::
                  Get(merged, n, d) == Get(start, n, d) + if n in todo then 0 else Get(part, n, d)
    {
      var n :| n in todo;
      merged := AddAt(merged, n, part[n]);
      todo := todo - {n};
    }
  }

  /** _sum_node_totals. */
  method SumNodeTotals(parts: seq<Totals>) returns (totals: Totals)
    ensures IsSumOf(totals, parts)
  {
    var merged: Totals := map[];
    for i := 0 to |parts|
      invariant forall n: NodeId, d :: Get(merged, n, d) == At(parts[..i], n, d)
      invariant forall d :: Total(merged, d) == TotalOfAll(parts[..i], d)
    {
      var next := AddTotals(merged, parts[i]);
      forall d
        ensures Total(next, d) == Total(merged, d) + Total(parts[i], d)
      {
        TotalOfSum(next, merged, parts[i], d);
      }
      assert parts[..i + 1][..i] == parts[..i];
      merged := next;
    }
    assert parts[..|parts|] == parts;
    totals := map n | n in merged && merged[n] != NONE :: merged[n];
    forall d
      ensures Total(totals, d) == Total(merged, d)
    {
      TotalOfSum(totals, merged, map[], d);
    }
  }

  // ------------------------------------------------------------------- the write

  /**
   * The counters of write_node_usage: a node row grows by its own total if it exists, and
   * System grows by exactly the sum of the totals, whether or not the node rows exist.
   */
  method WriteNodeUsage(nodes: Totals, system: Traffic, totals: Totals) returns (nodes': Totals, system': Traffic)
    ensures forall d :: Bytes(system', d) == Bytes(system, d) + Total(totals, d)
    ensures nodes'.Keys == nodes.Keys
    ensures forall n, d :: n in nodes ==> Get(nodes', n, d) == Get(nodes, n, d) + Get(totals, n, d)
  {
    nodes' := map n | n in nodes :: if n in totals then Plus(nodes[n], totals[n]) else nodes[n];
    var sum := NONE;
    var todo := totals.Keys;
    while todo != {}
      invariant todo <= totals.Keys
      invariant forall d :: Bytes(sum, d) + Over(totals, todo, d) == Total(totals, d)
    {
      var n :| n in todo;
      forall d
        ensures Over(totals, todo, d) == Bytes(totals[n], d) + Over(totals, todo - {n}, d)
      {
        OverRemove(totals, todo, n, d);
      }
      sum := Plus(sum, totals[n]);
      todo := todo - {n};
    }
    system' := Plus(system, sum);
  }

  // -------------------------------------------------------------- the chart rows

  ghost function BytesIn(rows: seq<Traffic>, d: Direction): nat {
    if rows == [] then 0 else BytesIn(rows[..|rows| - 1], d) + Bytes(rows[|rows| - 1], d)
  }

  /** The rows with the totals of the nodes in `done` added. */
  ghost function Charted(rows: Totals, totals: Totals, done: set<NodeId>): Totals {
    map n | n in rows.Keys + (totals.Keys * done) ::
      if n in rows && n in totals && n in done then Plus(rows[n], totals[n]) else if n in rows then rows[n] else totals[n]
  }

  lemma ChartedOneMore(rows: Totals, totals: Totals, done: set<NodeId>, n: NodeId)
    requires n in totals && n !in done
    ensures AddAt(Charted(rows, totals, done), n, totals[n]) == Charted(rows, totals, done + {n})
  {
  }

  lemma ChartedAt(rows: Totals, totals: Totals, done: set<NodeId>, n: NodeId, d: Direction)
    ensures Get(Charted(rows, totals, done), n, d) == Get(rows, n, d) + if n in done then Get(totals, n, d) else 0
  {
  }

  /** Rows that name no node, with one more for each node in `gone`. */
  ghost predicate IsNameless(rows': seq<Traffic>, rows: seq<Traffic>, totals: Totals, gone: set<NodeId>) {
    && |rows'| == |rows| + |gone|
    && forall d :: BytesIn(rows', d) == BytesIn(rows, d) + Over(totals, gone, d)
  }

  lemma NamelessOneMore(rows': seq<Traffic>, rows: seq<Traffic>, totals: Totals, gone: set<NodeId>, n: NodeId)
    requires IsNameless(rows', rows, totals, gone) && n in totals && n !in gone
    ensures IsNameless(rows' + [totals[n]], rows, totals, gone + {n})
  {
    var more := rows' + [totals[n]];
    assert more[..|rows'|] == rows' && gone + {n} - {n} == gone;
    forall d
      ensures BytesIn(more, d) == BytesIn(rows, d) + Over(totals, gone + {n}, d)
    {
      OverRemove(totals, gone + {n}, n, d);
    }
  }

  /**
   * The chart rows of one bucket in write_node_usage: the row of a node that exists grows by its
   * total, and each node that is gone leaves a row of its own that names no node, so that
   * no byte is missing from the chart.
   */
  method WriteNodeChart(existing: set<NodeId>, rows: Totals, nameless: seq<Traffic>, totals: Totals)
    returns (rows': Totals, nameless': seq<Traffic>)
    ensures rows'.Keys == rows.Keys + (totals.Keys * existing)
    ensures forall n: NodeId, d :: Get(rows', n, d) == Get(rows, n, d) + if n in existing then Get(totals, n, d) else 0
    ensures IsNameless(nameless', nameless, totals, totals.Keys - existing)
  {
    rows' := ChartOfNodes(existing, rows, totals);
    nameless' := ChartOfGone(existing, nameless, totals);
    forall n: NodeId, d
      ensures Get(rows', n, d) == Get(rows, n, d) + if n in existing then Get(totals, n, d) else 0
    {
      ChartedAt(rows, totals, totals.Keys * existing, n, d);
    }
  }

  /** The part of the loop for nodes that exist. */
  method ChartOfNodes(existing: set<NodeId>, rows: Totals, totals: Totals) returns (rows': Totals)
    ensures rows' == Charted(rows, totals, totals.Keys * existing)
  {
    rows' := rows;
    var todo := totals.Keys * existing;
    ghost var done: set<NodeId> := {};
    assert Charted(rows, totals, {}) == rows;
    while todo != {}
      invariant todo !! done && todo + done == totals.Keys * existing
      invariant rows' == Charted(rows, totals, done)
      decreases todo
    {
      var n := Least(todo);
      ChartedOneMore(rows, totals, done, n);
      rows' := AddAt(rows', n, totals[n]);
      todo := todo - {n};
      done := done + {n};
    }
    assert done == totals.Keys * existing;
  }

  /** The part of the loop for nodes that are gone. */
  method ChartOfGone(existing: set<NodeId>, nameless: seq<Traffic>, totals: Totals) returns (nameless': seq<Traffic>)
    ensures IsNameless(nameless', nameless, totals, totals.Keys - existing)
  {
    nameless' := nameless;
    var todo := totals.Keys - existing;
    ghost var gone: set<NodeId> := {};
    while todo != {}
      invariant todo !! gone && todo + gone == totals.Keys - existing
      invariant IsNameless(nameless', nameless, totals, gone)
      decreases todo
    {
      var n := Least(todo);
      NamelessOneMore(nameless', nameless, totals, gone, n);
      nameless' := nameless' + [totals[n]];
      todo := todo - {n};
      gone := gone + {n};
    }
    assert gone == totals.Keys - existing;
  }

  // ------------------------------------------------------------------- the ticks

  /** How an attempt to write ends. */
  datatype Outcome = Written | Stale(nodes: set<NodeId>) | CleanFailure | InDoubt(landed: bool)

  datatype Result = Nothing | Wrote(totals: Totals) | Raised(inDoubt: bool, landed: bool, totals: Totals)

  function TotalsOf(entries: seq<Backlog>): seq<Totals> {
    seq(|entries|, i requires 0 <= i < |entries| => entries[i].totals)
  }

  function Entries(backlog: seq<Backlog>, legacy: Totals, tick: nat): seq<Backlog> {
    if legacy == map[] then backlog else backlog + [Backlog(legacy, 0, tick)]
  }

  /** The entries a failure leaves in memory. */
  function Kept(entries: seq<Backlog>, inDoubt: bool): seq<Backlog> {
    if entries == [] then
      []
    else
      var last := entries[|entries| - 1];
      Kept(entries[..|entries| - 1], inDoubt)
      + if !inDoubt && last.attempts + 1 < MAX_ATTEMPTS then [last.(attempts := last.attempts + 1)] else []
  }

  predicate IsBacklog(entries: seq<Backlog>) {
    forall i :: 0 <= i < |entries| ==>
      entries[i].totals != map[] && IsPositive(entries[i].totals) && entries[i].attempts < MAX_ATTEMPTS
  }

  function Without(m: Totals, nodes: set<NodeId>): Totals {
    m - nodes
  }

  /** The module state `_retained_node_usage` and the job over it. */
  class NodeUsageRecorder {
    var retained: seq<Backlog>

    constructor ()
      ensures retained == [] && IsBacklog(retained)
    {
      retained := [];
    }

    /** _keep_or_abandon_node_usage. */
    method KeepOrAbandonNodeUsage(backlog: seq<Backlog>, legacy: Totals, tick: nat, inDoubt: bool)
      modifies this
      ensures retained == old(retained) + Kept(Entries(backlog, legacy, tick), inDoubt)
    {
      var entries := Entries(backlog, legacy, tick);
      for i := 0 to |entries|
        invariant retained == old(retained) + Kept(entries[..i], inDoubt)
      {
        assert entries[..i + 1][..i] == entries[..i];
        var attempts := entries[i].attempts + 1;
        if !inDoubt && attempts < MAX_ATTEMPTS {
          retained := retained + [entries[i].(attempts := attempts)];
        }
      }
      assert entries[..|entries|] == entries;
    }

    /** A failed tick on the emptied list: what the rule keeps is a backlog again. */
    method GiveBack(backlog: seq<Backlog>, legacy: Totals, tick: nat, inDoubt: bool)
      requires retained == [] && IsBacklog(backlog) && IsPositive(legacy)
      modifies this
      ensures retained == Kept(Entries(backlog, legacy, tick), inDoubt) && IsBacklog(retained)
    {
      KeepOrAbandonNodeUsage(backlog, legacy, tick, inDoubt);
      KeptIsBacklog(Entries(backlog, legacy, tick), inDoubt);
      assert [] + retained == retained;
    }

    /**
     * _record_node_usages_impl once the nodes have answered: `legacy` was read from nodes
     * that keep no batch, `held` from nodes that keep the batches of `billable`. The
     * verdict says how the write ends while a given set of batches is still billable.
     */
    method RecordNodeUsages(legacy: Totals, held: Totals, billable: set<NodeId>, tick: nat, verdict: set<NodeId> -> Outcome)
      returns (r: Result, stale: set<NodeId>)
      requires IsBacklog(retained) && IsPositive(legacy) && held.Keys <= billable
      requires forall b :: verdict(b).Stale? ==> verdict(b).nodes != {} && verdict(b).nodes <= b
      modifies this
      ensures IsBacklog(retained) && stale <= billable
      ensures r.Nothing? <==> old(retained) == [] && legacy == map[] && billable == {}
      ensures !r.Nothing? ==> IsSumOf(r.totals, TotalsOf(old(retained)) + [legacy, Without(held, stale)])
      ensures r.Wrote? ==> retained == [] && verdict(billable - stale) == Written
      ensures r.Raised? ==>
                && retained == Kept(Entries(old(retained), legacy, tick), r.inDoubt)
                && verdict(billable - stale) == if r.inDoubt then InDoubt(r.landed) else CleanFailure
      ensures retained == KeptBy(Entries(old(retained), legacy, tick), EndOf(r))
    {
      var backlog := retained;
      retained := [];
      stale := {};
      while true
        invariant retained == [] && stale <= billable
        decreases |billable - stale|
      {
        var parts := TotalsOf(backlog) + [legacy, Without(held, stale)];
        var totals := SumNodeTotals(parts);
        NothingToSum(backlog, legacy, Without(held, stale), totals);
        if totals == map[] && billable == {} {
          NothingMeansNoBacklog(backlog, legacy, Without(held, stale), totals);
          return Nothing, stale;
        }
        match verdict(billable - stale)
        case Written =>
          return Wrote(totals), stale;
        case Stale(nodes) =>
          assert billable - (stale + nodes) < billable - stale;
          FewerThan(billable - (stale + nodes), billable - stale);
          stale := stale + nodes;
        case CleanFailure =>
          GiveBack(backlog, legacy, tick, false);
          return Raised(false, false, totals), stale;
        case InDoubt(landed) =>
          GiveBack(backlog, legacy, tick, true);
          return Raised(true, landed, totals), stale;
      }
    }
  }

  lemma {:induction false} PartIsWithinSum(parts: seq<Totals>, i: nat, n: NodeId, d: Direction)
    requires i < |parts|
    ensures At(parts, n, d) >= Get(parts[i], n, d)
  {
    if i < |parts| - 1 {
      PartIsWithinSum(parts[..|parts| - 1], i, n, d);
    }
  }

  /** Every backlog entry has traffic, so an empty sum means that there was no backlog to lose. */
  lemma NothingMeansNoBacklog(backlog: seq<Backlog>, legacy: Totals, held: Totals, totals: Totals)
    requires IsBacklog(backlog) && IsPositive(legacy)
    requires IsSumOf(totals, TotalsOf(backlog) + [legacy, held]) && totals == map[]
    ensures backlog == [] && legacy == map[]
  {
    var parts := TotalsOf(backlog) + [legacy, held];
    forall i: nat, n | i < |parts| && n in parts[i]
      ensures parts[i][n] == NONE
    {
      forall d
        ensures Get(parts[i], n, d) == 0
      {
        PartIsWithinSum(parts, i, n, d);
        assert Get(totals, n, d) == At(parts, n, d);
      }
      assert Get(parts[i], n, Up) == 0 && Get(parts[i], n, Down) == 0;
    }
    assert parts[|backlog|] == legacy;
    assert forall i :: 0 <= i < |backlog| ==> parts[i] == backlog[i].totals;
    if backlog != [] {
      var n :| n in backlog[0].totals;
      assert false;
    }
  }

  lemma {:induction false} NothingInEmpty(parts: seq<Totals>, n: NodeId, d: Direction)
    requires forall i :: 0 <= i < |parts| ==> parts[i] == map[]
    ensures At(parts, n, d) == 0
  {
    if parts != [] {
      NothingInEmpty(parts[..|parts| - 1], n, d);
    }
  }

  lemma NothingToSum(backlog: seq<Backlog>, legacy: Totals, held: Totals, totals: Totals)
    requires IsSumOf(totals, TotalsOf(backlog) + [legacy, held])
    ensures backlog == [] && legacy == map[] && held == map[] ==> totals == map[]
  {
    if backlog == [] && legacy == map[] && held == map[] {
      var parts: seq<Totals> := TotalsOf(backlog) + [legacy, held];
      assert |parts| == 2 && parts[0] == map[] && parts[1] == map[];
      forall n: NodeId
        ensures n !in totals
      {
        NothingInEmpty(parts, n, Up);
        NothingInEmpty(parts, n, Down);
        assert Get(totals, n, Up) == At(parts, n, Up) && Get(totals, n, Down) == At(parts, n, Down);
      }
    }
  }

  lemma {:induction false} KeptIsBacklog(entries: seq<Backlog>, inDoubt: bool)
    requires IsBacklog(entries)
    ensures IsBacklog(Kept(entries, inDoubt))
  {
    if entries != [] {
      KeptIsBacklog(entries[..|entries| - 1], inDoubt);
    }
  }

  // -------------------------------------------------------------------- the runs

  /** How a tick ends, as RecordNodeUsages reports it. */
  datatype End = Quiet | Recorded | FailedCleanly | FailedInDoubt(landed: bool)

  function EndOf(r: Result): End {
    match r
    case Nothing => Quiet
    case Wrote(_) => Recorded
    case Raised(inDoubt, landed, _) => if inDoubt then FailedInDoubt(landed) else FailedCleanly
  }

  function KeptBy(entries: seq<Backlog>, end: End): seq<Backlog> {
    if end.Recorded? || end.Quiet? then [] else Kept(entries, end.FailedInDoubt?)
  }

  /**
   * The backlog between ticks, how each tick ended and what it read from single-phase nodes,
   * and which ticks' reads were written, finished with or given up.
   */
  datatype World = World(
    retained: seq<Backlog>, ends: seq<End>, polled: seq<Totals>, readIn: set<nat>, commits: seq<set<nat>>,
    finished: set<nat>, givenUp: set<nat>)
  {
    function Ticks(): nat {
      |ends|
    }
  }

  const FirstWorld := World([], [], [], {}, [], {}, {})

  ghost function TicksOf(entries: seq<Backlog>): set<nat> {
    set i | 0 <= i < |entries| :: entries[i].tick
  }

  ghost predicate CanEnd(w: World, legacy: Totals, end: End) {
    IsPositive(legacy) && (end.Quiet? ==> w.retained == [] && legacy == map[])
  }

  ghost function AfterTick(w: World, legacy: Totals, end: End): World {
    var entries := Entries(w.retained, legacy, w.Ticks());
    var own := TicksOf(entries);
    var kept := KeptBy(entries, end);
    World(kept,
          w.ends + [end],
          w.polled + [legacy],
          if legacy == map[] then w.readIn else w.readIn + {w.Ticks()},
          if end.Recorded? || (end.FailedInDoubt? && end.landed) then w.commits + [own] else w.commits,
          if end.Recorded? then w.finished + own else w.finished,
          if end.Recorded? then w.givenUp else w.givenUp + (own - TicksOf(kept)))
  }

  ghost predicate WorldRuns(w: World, ticks: seq<(Totals, End)>, v: World)
    decreases |ticks|
  {
    if ticks == [] then
      w == v
    else
      CanEnd(w, ticks[0].0, ticks[0].1) && WorldRuns(AfterTick(w, ticks[0].0, ticks[0].1), ticks[1..], v)
  }

  /** No tick's read is part of two committed writes. */
  ghost predicate WrittenAtMostOnce(w: World) {
    forall i, j :: 0 <= i < j < |w.commits| ==> w.commits[i] !! w.commits[j]
  }

  ghost predicate HasDistinctTicks(entries: seq<Backlog>) {
    forall i, j :: 0 <= i < j < |entries| ==> entries[i].tick != entries[j].tick
  }

  /** Every read is retained, finished with or given up, and only one of these. */
  ghost predicate EveryReadIsPlaced(w: World) {
    && w.readIn == TicksOf(w.retained) + w.finished + w.givenUp
    && TicksOf(w.retained) !! w.finished !! w.givenUp
  }

  // ------------------------------------------------------------- why a read ended as it did

  /** What the ends of the ticks since it was read make of a read. */
  datatype Fate = Waiting(tries: nat) | Finished | GivenUp(landed: bool)

  function FateFrom(ends: seq<End>, t: nat, tries: nat): Fate
    requires t + tries <= |ends|
    decreases |ends| - tries
  {
    if t + tries == |ends| then
      Waiting(tries)
    else
      match ends[t + tries]
      case Quiet => Waiting(tries)
      case Recorded => Finished
      case FailedInDoubt(landed) => GivenUp(landed)
      case FailedCleanly => if tries + 1 < MAX_ATTEMPTS then FateFrom(ends, t, tries + 1) else GivenUp(false)
  }

  function Decide(tries: nat, end: End): Fate {
    match end
    case Quiet => Waiting(tries)
    case Recorded => Finished
    case FailedInDoubt(landed) => GivenUp(landed)
    case FailedCleanly => if tries + 1 < MAX_ATTEMPTS then Waiting(tries + 1) else GivenUp(false)
  }

  lemma {:induction false} FateOneMore(ends: seq<End>, end: End, t: nat, tries: nat)
    requires t + tries <= |ends|
    ensures
      var f, g := FateFrom(ends, t, tries), FateFrom(ends + [end], t, tries);
      && (f.Waiting? && t + f.tries == |ends| ==> g == Decide(f.tries, end))
      && (!f.Waiting? ==> g == f)
    decreases |ends| - tries
  {
    if t + tries < |ends| {
      assert (ends + [end])[t + tries] == ends[t + tries];
      if ends[t + tries].FailedCleanly? && tries + 1 < MAX_ATTEMPTS {
        FateOneMore(ends, end, t, tries + 1);
      }
    }
  }

  ghost predicate AllFailCleanly(ends: seq<End>, low: nat, high: nat) {
    high <= |ends| && forall k :: low <= k < high ==> ends[k].FailedCleanly?
  }

  /** After `n` clean failures, fewer than ten, the next tick recorded. */
  ghost predicate RecordedAfter(ends: seq<End>, t: nat, n: nat) {
    n < MAX_ATTEMPTS && t + n < |ends| && AllFailCleanly(ends, t, t + n) && ends[t + n].Recorded?
  }

  /** After `n` clean failures, fewer than ten, the next tick was in doubt, or was the tenth clean failure. */
  ghost predicate GivenUpAfter(ends: seq<End>, t: nat, n: nat) {
    && n < MAX_ATTEMPTS && t + n < |ends| && AllFailCleanly(ends, t, t + n)
    && (ends[t + n].FailedInDoubt? || (n == MAX_ATTEMPTS - 1 && ends[t + n].FailedCleanly?))
  }

  /** A read that ended: after fewer than ten clean failures the tick that decided it, or the tenth of them. */
  lemma {:induction false} FateMeans(ends: seq<End>, t: nat, tries: nat)
    requires t + tries <= |ends| && tries < MAX_ATTEMPTS && AllFailCleanly(ends, t, t + tries)
    ensures
      var f := FateFrom(ends, t, tries);
      && (f.Waiting? ==> f.tries < MAX_ATTEMPTS && AllFailCleanly(ends, t, t + f.tries))
      && (f.Finished? ==> exists n :: RecordedAfter(ends, t, n))
      && (f.GivenUp? ==> exists n :: GivenUpAfter(ends, t, n))
    decreases |ends| - tries
  {
    if t + tries < |ends| {
      assert ends[t + tries].Recorded? ==> RecordedAfter(ends, t, tries);
      assert ends[t + tries].FailedInDoubt? ==> GivenUpAfter(ends, t, tries);
      assert ends[t + tries].FailedCleanly? && tries == MAX_ATTEMPTS - 1 ==> GivenUpAfter(ends, t, tries);
      if ends[t + tries].FailedCleanly? && tries + 1 < MAX_ATTEMPTS {
        FateMeans(ends, t, tries + 1);
      }
    }
  }

  ghost predicate IsWritten(commits: seq<set<nat>>, t: nat) {
    exists i :: 0 <= i < |commits| && t in commits[i]
  }

  /**
   * A read is finished with exactly when a tick recorded it, given up exactly when a write of
   * it was in doubt or its tenth write failed, else kept whole with one attempt per failed
   * tick; and it is in a committed write exactly when recorded or landed in doubt.
   */
  ghost predicate IsJustified(w: World, t: nat)
    requires t < |w.ends| && |w.polled| == |w.ends|
  {
    var f := FateFrom(w.ends, t, 0);
    && (t in w.finished <==> f.Finished?)
    && (t in w.givenUp <==> f.GivenUp?)
    && (f.Waiting? ==> t + f.tries == |w.ends|)
    && (forall i :: 0 <= i < |w.retained| && w.retained[i].tick == t ==>
          f == Waiting(w.retained[i].attempts) && w.retained[i].totals == w.polled[t])
    && (IsWritten(w.commits, t) <==> f.Finished? || f == GivenUp(true))
  }

  ghost predicate EveryFateIsJustified(w: World) {
    |w.polled| == |w.ends| && forall t :: t in w.readIn ==> t < |w.ends| && IsJustified(w, t)
  }

  ghost predicate WorldInv(w: World) {
    && EveryFateIsJustified(w)
    && IsBacklog(w.retained) && HasDistinctTicks(w.retained)
    && EveryReadIsPlaced(w) && WrittenAtMostOnce(w)
    && (forall t :: t in w.readIn ==> t < w.Ticks())
    && (forall i :: 0 <= i < |w.commits| ==> w.commits[i] <= w.finished + w.givenUp)
  }

  lemma {:induction false} KeptTicks(entries: seq<Backlog>, inDoubt: bool)
    requires HasDistinctTicks(entries)
    ensures TicksOf(Kept(entries, inDoubt)) <= TicksOf(entries)
    ensures HasDistinctTicks(Kept(entries, inDoubt))
  {
    if entries != [] {
      var rest, last := entries[..|entries| - 1], entries[|entries| - 1];
      KeptTicks(rest, inDoubt);
      forall t | t in TicksOf(Kept(entries, inDoubt))
        ensures t in TicksOf(entries)
      {
        assert t == last.tick || t in TicksOf(Kept(rest, inDoubt));
        assert t == entries[|entries| - 1].tick || t in TicksOf(rest);
      }
      forall i | 0 <= i < |Kept(rest, inDoubt)|
        ensures Kept(rest, inDoubt)[i].tick != last.tick
      {
        assert Kept(rest, inDoubt)[i].tick in TicksOf(rest);
      }
    }
  }

  lemma EntriesTicks(retained: seq<Backlog>, legacy: Totals, tick: nat)
    requires HasDistinctTicks(retained) && tick !in TicksOf(retained)
    ensures HasDistinctTicks(Entries(retained, legacy, tick))
    ensures TicksOf(Entries(retained, legacy, tick)) == if legacy == map[] then TicksOf(retained) else TicksOf(retained) + {tick}
  {
    var entries := Entries(retained, legacy, tick);
    if legacy != map[] {
      assert entries[|retained|].tick == tick;
      forall i | 0 <= i < |retained|
        ensures entries[i].tick in TicksOf(retained)
      {
        assert entries[i] == retained[i];
      }
      forall t | t in TicksOf(retained)
        ensures t in TicksOf(entries)
      {
        var i :| 0 <= i < |retained| && retained[i].tick == t;
        assert entries[i].tick == t;
      }
    }
  }

  lemma TickKeepsInv(w: World, legacy: Totals, end: End)
    requires WorldInv(w) && CanEnd(w, legacy, end)
    ensures WorldInv(AfterTick(w, legacy, end))
  {
    var entries := Entries(w.retained, legacy, w.Ticks());
    var v := AfterTick(w, legacy, end);
    assert w.Ticks() !in w.readIn;
    EntriesTicks(w.retained, legacy, w.Ticks());
    KeptTicks(entries, end.FailedInDoubt?);
    assert IsBacklog(entries);
    KeptIsBacklog(entries, end.FailedInDoubt?);
    if end.FailedInDoubt? {
      InDoubtKeepsNothing(entries);
    }
    var own, kept := TicksOf(entries), TicksOf(v.retained);
    assert kept <= own && (end.Recorded? || end.FailedInDoubt? ==> kept == {});
    PlacedAfter(w, v, own, kept);
    OnceAfter(w, v, own);
    forall t | t in v.readIn
      ensures t < |v.ends| && IsJustified(v, t)
    {
      if t in own {
        OwnFate(w, legacy, end, t);
      } else {
        OtherFate(w, legacy, end, t);
      }
    }
  }

  /** The entry of a tick among those kept: exactly if it has attempts left, with one more counted. */
  lemma {:induction false} KeptAt(entries: seq<Backlog>, i: nat)
    requires HasDistinctTicks(entries) && i < |entries|
    ensures entries[i].tick in TicksOf(Kept(entries, false)) <==> entries[i].attempts + 1 < MAX_ATTEMPTS
    ensures forall j :: 0 <= j < |Kept(entries, false)| && Kept(entries, false)[j].tick == entries[i].tick ==>
              Kept(entries, false)[j] == entries[i].(attempts := entries[i].attempts + 1)
  {
    var rest, last := entries[..|entries| - 1], entries[|entries| - 1];
    var kept, keptRest := Kept(entries, false), Kept(rest, false);
    KeptTicks(rest, false);
    forall j | 0 <= j < |keptRest|
      ensures keptRest[j].tick != last.tick
    {
      assert keptRest[j].tick in TicksOf(rest);
    }
    if i < |rest| {
      KeptAt(rest, i);
      assert entries[i].tick != last.tick;
      if entries[i].tick in TicksOf(keptRest) {
        var j :| 0 <= j < |keptRest| && keptRest[j].tick == entries[i].tick;
        assert kept[j] == keptRest[j];
      }
    } else if last.attempts + 1 < MAX_ATTEMPTS {
      assert kept[|keptRest|].tick == last.tick;
    }
  }

  lemma WrittenOneMore(commits: seq<set<nat>>, own: set<nat>, t: nat)
    ensures IsWritten(commits + [own], t) <==> IsWritten(commits, t) || t in own
  {
    var more := commits + [own];
    assert more[|commits|] == own;
    if i :| 0 <= i < |commits| && t in commits[i] {
      assert t in more[i];
    }
    if i :| 0 <= i < |more| && t in more[i] {
      assert i < |commits| ==> t in commits[i];
    }
  }

  lemma NotWrittenYet(w: World, t: nat)
    requires WorldInv(w) && t !in w.finished && t !in w.givenUp
    ensures !IsWritten(w.commits, t)
  {
  }

  /** A read that the tick tried to write. */
  lemma OwnFate(w: World, legacy: Totals, end: End, t: nat)
    requires WorldInv(w) && CanEnd(w, legacy, end) && t in TicksOf(Entries(w.retained, legacy, w.Ticks()))
    requires HasDistinctTicks(Entries(w.retained, legacy, w.Ticks()))
    ensures t < |w.ends| + 1 && IsJustified(AfterTick(w, legacy, end), t)
  {
    var entries, v := Entries(w.retained, legacy, w.Ticks()), AfterTick(w, legacy, end);
    var i :| 0 <= i < |entries| && entries[i].tick == t;
    EntryIsWaiting(w, legacy, i);
    FateOneMore(w.ends, end, t, 0);
    WrittenOneMore(w.commits, TicksOf(entries), t);
    NotWrittenYet(w, t);
    if end.FailedCleanly? {
      KeptAt(entries, i);
    } else if end.FailedInDoubt? {
      InDoubtKeepsNothing(entries);
    }
  }

  lemma EntryIsWaiting(w: World, legacy: Totals, i: nat)
    requires WorldInv(w) && i < |Entries(w.retained, legacy, w.Ticks())|
    ensures
      var e := Entries(w.retained, legacy, w.Ticks())[i];
      && e.tick <= |w.ends| && e.tick + e.attempts == |w.ends|
      && FateFrom(w.ends, e.tick, 0) == Waiting(e.attempts)
      && e.totals == (w.polled + [legacy])[e.tick]
      && e.tick !in w.finished && e.tick !in w.givenUp
  {
    if i < |w.retained| {
      assert w.retained[i].tick in TicksOf(w.retained);
      assert IsJustified(w, w.retained[i].tick);
    }
  }

  /** A read that had ended before stays as it is. */
  lemma OtherFate(w: World, legacy: Totals, end: End, t: nat)
    requires WorldInv(w) && CanEnd(w, legacy, end)
    requires t in AfterTick(w, legacy, end).readIn && t !in TicksOf(Entries(w.retained, legacy, w.Ticks()))
    requires HasDistinctTicks(Entries(w.retained, legacy, w.Ticks()))
    ensures t < |w.ends| + 1 && IsJustified(AfterTick(w, legacy, end), t)
  {
    var entries, v := Entries(w.retained, legacy, w.Ticks()), AfterTick(w, legacy, end);
    assert w.Ticks() !in w.readIn;
    EntriesTicks(w.retained, legacy, w.Ticks());
    assert IsJustified(w, t);
    FateOneMore(w.ends, end, t, 0);
    WrittenOneMore(w.commits, TicksOf(entries), t);
    KeptTicks(entries, end.FailedInDoubt?);
    assert t !in TicksOf(v.retained);
    forall j | 0 <= j < |v.retained|
      ensures v.retained[j].tick != t
    {
      assert v.retained[j].tick in TicksOf(v.retained);
    }
  }

  lemma PlacedAfter(w: World, v: World, own: set<nat>, kept: set<nat>)
    requires EveryReadIsPlaced(w) && w.Ticks() !in w.readIn
    requires own == TicksOf(w.retained) + (v.readIn - w.readIn) && kept <= own && kept == TicksOf(v.retained)
    requires v.readIn == w.readIn || v.readIn == w.readIn + {w.Ticks()}
    requires || (v.finished == w.finished + own && v.givenUp == w.givenUp && kept == {})
             || (v.finished == w.finished && v.givenUp == w.givenUp + (own - kept))
    ensures EveryReadIsPlaced(v)
  {
  }

  lemma OnceAfter(w: World, v: World, own: set<nat>)
    requires WrittenAtMostOnce(w) && own !! (w.finished + w.givenUp)
    requires forall i :: 0 <= i < |w.commits| ==> w.commits[i] <= w.finished + w.givenUp
    requires v.commits == w.commits || (v.commits == w.commits + [own] && own <= v.finished + v.givenUp)
    requires w.finished <= v.finished && w.givenUp <= v.givenUp
    ensures WrittenAtMostOnce(v)
    ensures forall i :: 0 <= i < |v.commits| ==> v.commits[i] <= v.finished + v.givenUp
  {
    forall i, j | 0 <= i < j < |v.commits|
      ensures v.commits[i] !! v.commits[j]
    {
      if j == |w.commits| {
        assert w.commits[i] <= w.finished + w.givenUp;
      }
    }
  }

  lemma {:induction false} InDoubtKeepsNothing(entries: seq<Backlog>)
    ensures Kept(entries, true) == []
  {
    if entries != [] {
      InDoubtKeepsNothing(entries[..|entries| - 1]);
    }
  }

  lemma {:induction false} RunKeepsInv(w: World, ticks: seq<(Totals, End)>, v: World)
    requires WorldInv(w) && WorldRuns(w, ticks, v)
    ensures WorldInv(v)
    decreases |ticks|
  {
    if ticks != [] {
      TickKeepsInv(w, ticks[0].0, ticks[0].1);
      RunKeepsInv(AfterTick(w, ticks[0].0, ticks[0].1), ticks[1..], v);
    }
  }

  /**
   * Over every run of ticks: traffic is written at most once, else retained or given up; what
   * is retained has traffic; and every read ended as the ends of the ticks since say.
   */
  lemma EveryRunOfTicksIsSafe(ticks: seq<(Totals, End)>, v: World)
    requires WorldRuns(FirstWorld, ticks, v)
    ensures WrittenAtMostOnce(v) && EveryReadIsPlaced(v) && IsBacklog(v.retained)
    ensures EveryFateIsJustified(v)
  {
    RunKeepsInv(FirstWorld, ticks, v);
  }

  /**
   * The fate of a read in terms of the ticks alone: finished with by the first tick that
   * recorded, given up by the first in doubt or the tenth clean failure, and until then kept.
   */
  lemma ReadsEndByRule(ticks: seq<(Totals, End)>, v: World, t: nat)
    requires WorldRuns(FirstWorld, ticks, v) && t in v.readIn
    ensures t in v.finished ==> exists n :: RecordedAfter(v.ends, t, n)
    ensures t in v.givenUp ==> exists n :: GivenUpAfter(v.ends, t, n)
    ensures t in TicksOf(v.retained) ==> |v.ends| < t + MAX_ATTEMPTS && AllFailCleanly(v.ends, t, |v.ends|)
    ensures t in v.finished ==> IsWritten(v.commits, t)
  {
    RunKeepsInv(FirstWorld, ticks, v);
    assert IsJustified(v, t);
    FateMeans(v.ends, t, 0);
    var f := FateFrom(v.ends, t, 0);
    if t in TicksOf(v.retained) {
      var i :| 0 <= i < |v.retained| && v.retained[i].tick == t;
      assert f.Waiting?;
    }
  }

  // ------------------------------------------------------------------ the System counter

  /** A tick as RecordNodeUsages sees it: what it read, what of the batches was not stale, and what it summed up. */
  datatype Tick = Tick(legacy: Totals, held: Totals, totals: Totals, end: End)

  /** The backlog with the System counter, and the batch totals that were written with it. */
  datatype Books = Books(world: World, system: Traffic, held: seq<Totals>)

  predicate Lands(end: End) {
    end.Recorded? || (end.FailedInDoubt? && end.landed)
  }

  ghost predicate CanHappen(b: Books, t: Tick) {
    && CanEnd(b.world, t.legacy, t.end)
    && (!t.end.Quiet? ==> IsSumOf(t.totals, TotalsOf(b.world.retained) + [t.legacy, t.held]))
  }

  /** A write that takes effect adds its totals to System, as WriteNodeUsage does. */
  ghost function AfterBooked(b: Books, t: Tick): Books {
    var world := AfterTick(b.world, t.legacy, t.end);
    if Lands(t.end) then
      Books(world, Traffic(b.system.up + Total(t.totals, Up), b.system.down + Total(t.totals, Down)), b.held + [t.held])
    else
      b.(world := world)
  }

  ghost predicate BooksRun(b: Books, ticks: seq<Tick>, c: Books)
    decreases |ticks|
  {
    if ticks == [] then b == c else CanHappen(b, ticks[0]) && BooksRun(AfterBooked(b, ticks[0]), ticks[1..], c)
  }

  ghost function WrittenIn(commits: seq<set<nat>>): set<nat> {
    if commits == [] then {} else WrittenIn(commits[..|commits| - 1]) + commits[|commits| - 1]
  }

  /** The bytes of the reads of these ticks, one way. */
  ghost function ReadBytes(polled: seq<Totals>, written: set<nat>, d: Direction): nat {
    if polled == [] then
      0
    else
      var t := |polled| - 1;
      ReadBytes(polled[..t], written, d) + if t in written then Total(polled[t], d) else 0
  }

  /** System is exactly the written reads and the batch totals written with them. */
  ghost predicate SystemIsExact(b: Books) {
    forall d :: Bytes(b.system, d) == ReadBytes(b.world.polled, WrittenIn(b.world.commits), d) + TotalOfAll(b.held, d)
  }

  lemma {:induction false} WrittenIsResolved(w: World, n: nat)
    requires WorldInv(w) && n <= |w.commits|
    ensures WrittenIn(w.commits[..n]) <= w.finished + w.givenUp
  {
    if n > 0 {
      assert w.commits[..n][..n - 1] == w.commits[..n - 1];
      WrittenIsResolved(w, n - 1);
    }
  }

  lemma {:induction false} OneTickMore(polled: seq<Totals>, written: set<nat>, t: nat, d: Direction)
    requires t < |polled| && t !in written
    ensures ReadBytes(polled, written + {t}, d) == ReadBytes(polled, written, d) + Total(polled[t], d)
    decreases |polled|
  {
    var last := |polled| - 1;
    if t < last {
      OneTickMore(polled[..last], written, t, d);
    } else {
      OtherTicks(polled[..last], written, written + {t}, d);
    }
  }

  lemma {:induction false} OtherTicks(polled: seq<Totals>, a: set<nat>, b: set<nat>, d: Direction)
    requires forall t :: 0 <= t < |polled| ==> (t in a <==> t in b)
    ensures ReadBytes(polled, a, d) == ReadBytes(polled, b, d)
    decreases |polled|
  {
    if polled != [] {
      OtherTicks(polled[..|polled| - 1], a, b, d);
    }
  }

  ghost predicate AreReads(entries: seq<Backlog>, polled: seq<Totals>, written: set<nat>) {
    forall i :: 0 <= i < |entries| ==>
      entries[i].tick < |polled| && entries[i].tick !in written && entries[i].totals == polled[entries[i].tick]
  }

  /** Writing the entries adds exactly their reads. */
  lemma {:induction false} EntriesMore(polled: seq<Totals>, written: set<nat>, entries: seq<Backlog>, d: Direction)
    requires HasDistinctTicks(entries) && AreReads(entries, polled, written)
    ensures ReadBytes(polled, written + TicksOf(entries), d) == ReadBytes(polled, written, d) + TotalOfAll(TotalsOf(entries), d)
    decreases |entries|
  {
    if entries == [] {
      assert written + TicksOf(entries) == written;
    } else {
      var rest, last := entries[..|entries| - 1], entries[|entries| - 1];
      EntriesMore(polled, written, rest, d);
      TicksOneMore(entries);
      assert TotalsOf(entries)[..|entries| - 1] == TotalsOf(rest);
      OneTickMore(polled, written + TicksOf(rest), last.tick, d);
      assert written + TicksOf(rest) + {last.tick} == written + TicksOf(entries);
    }
  }

  lemma TicksOneMore(entries: seq<Backlog>)
    requires entries != [] && HasDistinctTicks(entries)
    ensures var rest, last := entries[..|entries| - 1], entries[|entries| - 1];
      TicksOf(entries) == TicksOf(rest) + {last.tick} && last.tick !in TicksOf(rest)
  {
    var rest, last := entries[..|entries| - 1], entries[|entries| - 1];
    assert forall i :: 0 <= i < |rest| ==> entries[i].tick == rest[i].tick;
    assert entries[|entries| - 1].tick == last.tick;
  }

  /** The parts of a tick are its entries and the batch totals. */
  lemma PartsOfTick(retained: seq<Backlog>, legacy: Totals, held: Totals, tick: nat, d: Direction)
    ensures TotalOfAll(TotalsOf(retained) + [legacy, held], d)
         == TotalOfAll(TotalsOf(Entries(retained, legacy, tick)), d) + Total(held, d)
  {
    var base := TotalsOf(retained);
    var parts := base + [legacy, held];
    assert parts[..|parts| - 1] == base + [legacy];
    assert (base + [legacy])[..|base|] == base;
    if legacy != map[] {
      assert TotalsOf(Entries(retained, legacy, tick)) == base + [legacy];
    }
  }

  lemma EntriesAreReads(w: World, legacy: Totals)
    requires WorldInv(w)
    ensures AreReads(Entries(w.retained, legacy, w.Ticks()), w.polled + [legacy], WrittenIn(w.commits))
    ensures HasDistinctTicks(Entries(w.retained, legacy, w.Ticks()))
    ensures w.Ticks() !in WrittenIn(w.commits)
  {
    var entries := Entries(w.retained, legacy, w.Ticks());
    assert w.commits[..|w.commits|] == w.commits;
    WrittenIsResolved(w, |w.commits|);
    assert w.Ticks() !in w.readIn;
    EntriesTicks(w.retained, legacy, w.Ticks());
    forall i | 0 <= i < |entries|
      ensures entries[i].tick < |w.polled| + 1 && entries[i].tick !in WrittenIn(w.commits)
      ensures entries[i].totals == (w.polled + [legacy])[entries[i].tick]
    {
      EntryIsWaiting(w, legacy, i);
    }
  }

  lemma WrittenInOneMore(commits: seq<set<nat>>, own: set<nat>)
    ensures WrittenIn(commits + [own]) == WrittenIn(commits) + own
  {
    assert (commits + [own])[..|commits|] == commits;
  }

  /** A tick that is not written leaves the written reads as they were. */
  lemma UnwrittenTick(w: World, legacy: Totals, d: Direction)
    requires WorldInv(w)
    ensures ReadBytes(w.polled + [legacy], WrittenIn(w.commits), d) == ReadBytes(w.polled, WrittenIn(w.commits), d)
  {
    EntriesAreReads(w, legacy);
    assert (w.polled + [legacy])[..|w.polled|] == w.polled;
  }

  /** A write that takes effect adds its sum to the written reads and batch totals. */
  lemma WrittenTick(w: World, t: Tick, d: Direction)
    requires WorldInv(w) && IsSumOf(t.totals, TotalsOf(w.retained) + [t.legacy, t.held])
    ensures var own := TicksOf(Entries(w.retained, t.legacy, w.Ticks()));
      ReadBytes(w.polled + [t.legacy], WrittenIn(w.commits + [own]), d) + Total(t.held, d)
        == ReadBytes(w.polled, WrittenIn(w.commits), d) + Total(t.totals, d)
  {
    var entries := Entries(w.retained, t.legacy, w.Ticks());
    UnwrittenTick(w, t.legacy, d);
    EntriesAreReads(w, t.legacy);
    WrittenInOneMore(w.commits, TicksOf(entries));
    EntriesMore(w.polled + [t.legacy], WrittenIn(w.commits), entries, d);
    PartsOfTick(w.retained, t.legacy, t.held, w.Ticks(), d);
  }

  lemma HeldOneMore(held: seq<Totals>, more: Totals, d: Direction)
    ensures TotalOfAll(held + [more], d) == TotalOfAll(held, d) + Total(more, d)
  {
    assert (held + [more])[..|held|] == held;
  }

  lemma LandingKeepsSystem(b: Books, t: Tick, d: Direction)
    requires WorldInv(b.world) && SystemIsExact(b) && CanHappen(b, t) && Lands(t.end)
    ensures var c := AfterBooked(b, t);
      Bytes(c.system, d) == ReadBytes(c.world.polled, WrittenIn(c.world.commits), d) + TotalOfAll(c.held, d)
  {
    WrittenTick(b.world, t, d);
    HeldOneMore(b.held, t.held, d);
  }

  lemma TickKeepsSystem(b: Books, t: Tick)
    requires WorldInv(b.world) && SystemIsExact(b) && CanHappen(b, t)
    ensures SystemIsExact(AfterBooked(b, t))
  {
    forall d
      ensures var c := AfterBooked(b, t);
        Bytes(c.system, d) == ReadBytes(c.world.polled, WrittenIn(c.world.commits), d) + TotalOfAll(c.held, d)
    {
      if Lands(t.end) {
        LandingKeepsSystem(b, t, d);
      } else {
        UnwrittenTick(b.world, t.legacy, d);
      }
    }
  }

  lemma {:induction false} BooksStayExact(b: Books, ticks: seq<Tick>, c: Books)
    requires WorldInv(b.world) && SystemIsExact(b) && BooksRun(b, ticks, c)
    ensures SystemIsExact(c)
    decreases |ticks|
  {
    if ticks != [] {
      TickKeepsSystem(b, ticks[0]);
      TickKeepsInv(b.world, ticks[0].legacy, ticks[0].end);
      BooksStayExact(AfterBooked(b, ticks[0]), ticks[1..], c);
    }
  }

  function EndsOf(ticks: seq<Tick>): seq<(Totals, End)> {
    seq(|ticks|, i requires 0 <= i < |ticks| => (ticks[i].legacy, ticks[i].end))
  }

  /** The books are kept along a run of the ticks. */
  lemma {:induction false} BooksFollowTheTicks(b: Books, ticks: seq<Tick>, c: Books)
    requires BooksRun(b, ticks, c)
    ensures WorldRuns(b.world, EndsOf(ticks), c.world)
    decreases |ticks|
  {
    if ticks != [] {
      BooksFollowTheTicks(AfterBooked(b, ticks[0]), ticks[1..], c);
      assert EndsOf(ticks)[1..] == EndsOf(ticks[1..]);
    }
  }

  /** Over every run of ticks System is exactly the reads that were written and the batch totals written with them. */
  lemma SystemCountsWhatWasWritten(ticks: seq<Tick>, c: Books)
    requires BooksRun(Books(FirstWorld, NONE, []), ticks, c)
    ensures SystemIsExact(c) && WorldRuns(FirstWorld, EndsOf(ticks), c.world)
  {
    assert WorldInv(FirstWorld);
    BooksFollowTheTicks(Books(FirstWorld, NONE, []), ticks, c);
    BooksStayExact(Books(FirstWorld, NONE, []), ticks, c);
  }
}
