/**
 * Interleaved operations on the host manager of one worker: updates, removals and reloads from
 * the database, cut at every point where the code awaits (app/core/hosts.py).
 */
module HostRuns {
  import opened HostCache

  type Rows = map<HostId, Row>

  /** How far an update or a removal has come since its rows were committed. */
  datatype Stage = Committed | Numbered(stamp: nat) | Viewed(stamp: nat, view: View)

  datatype Op = Op(removal: bool, ids: set<HostId>, stage: Stage)

  datatype Loaded = NotYet | Loaded(hosts: Hosts)

  /**
   * A reload: failed attempts so far, the generation it saw, and what it then read. The
   * generation it started at and how often it has read are history.
   */
  datatype Reload = Reload(failures: nat, seen: nat, loaded: Loaded, since: nat, loads: nat)

  const DB_RELOAD_ATTEMPTS: nat := 3

  /** `settingUp`: setup_local took stamp 1 and has not read the rows yet. */
  datatype State = State(
    rows: Rows, hosts: Hosts, stamps: Stamps, stamp: nat, generation: nat,
    settingUp: bool, ops: map<nat, Op>, reloads: map<nat, Reload>)

  datatype Step =
    | CommitRows(i: nat, changed: Rows, ids: set<HostId>)
    | CommitDeletes(removals: map<nat, HostId>)
    | ReadForSetup(i: nat)
    | TakeStamp(i: nat)
    | ReadAgain(i: nat)
    | Install(i: nat)
    | StartReload(j: nat)
    | LoadAll(j: nat)
    | FinishReload(j: nat)

  ghost predicate Starts(s: State) {
    s == State(s.rows, map[], map[], 1, s.generation, true, map[], map[])
  }

  predicate Enabled(s: State, step: Step) {
    match step
    case CommitRows(i, changed, ids) => i !in s.ops && changed.Keys <= ids
    case CommitDeletes(removals) => removals.Keys !! s.ops.Keys
    case ReadForSetup(i) => s.settingUp && i !in s.ops
    case TakeStamp(i) => i in s.ops && s.ops[i].stage.Committed?
    case ReadAgain(i) => i in s.ops && s.ops[i].stage.Numbered?
    case Install(i) => i in s.ops && s.ops[i].stage.Viewed?
    case StartReload(j) => j !in s.reloads
    case LoadAll(j) => j in s.reloads && s.reloads[j].loaded.NotYet?
    case FinishReload(j) => j in s.reloads && s.reloads[j].loaded.Loaded?
  }

  function Removals(removals: map<nat, HostId>): map<nat, Op> {
    map i | i in removals :: Op(true, {removals[i]}, Committed)
  }

  function AllAbsent(ids: set<HostId>): View {
    map h | h in ids :: Absent
  }

  function Stamping(s: State, op: Op): Op {
    var stamp := s.stamp + 1;
    if op.removal then
      op.(stage := Viewed(stamp, AllAbsent(op.ids)))
    else
      op.(stage := Numbered(stamp))
  }

  function Finished(s: State, j: nat): State
    requires j in s.reloads && s.reloads[j].loaded.Loaded?
  {
    var r := s.reloads[j];
    if r.seen == s.generation then
      s.(hosts := r.loaded.hosts, generation := s.generation + 1, reloads := s.reloads - {j})
    else
      s.(reloads := TryAgain(s.reloads, s.generation, j))
  }

  /** The next attempt, up to the third. */
  function TryAgain(reloads: map<nat, Reload>, generation: nat, j: nat): map<nat, Reload>
    requires j in reloads
  {
    if reloads[j].failures + 1 < DB_RELOAD_ATTEMPTS then
      reloads[j := Reload(reloads[j].failures + 1, generation, NotYet, reloads[j].since, reloads[j].loads)]
    else
      reloads - {j}
  }

  function Apply(env: Env, s: State, step: Step): State
    requires Enabled(s, step)
  {
    match step
    case CommitRows(i, changed, ids) =>
      s.(rows := s.rows + changed, ops := s.ops[i := Op(false, ids, Committed)])
    case CommitDeletes(removals) =>
      s.(rows := s.rows - removals.Values, ops := s.ops + Removals(removals))
    case ReadForSetup(i) =>
      s.(settingUp := false, ops := s.ops[i := Op(false, s.rows.Keys, Viewed(1, ViewOf(env, s.rows, s.rows.Keys)))])
    case TakeStamp(i) =>
      s.(stamp := s.stamp + 1, ops := s.ops[i := Stamping(s, s.ops[i])])
    case ReadAgain(i) =>
      var op := s.ops[i];
      s.(ops := s.ops[i := op.(stage := Viewed(op.stage.stamp, ViewOf(env, s.rows, op.ids)))])
    case Install(i) =>
      var stage := s.ops[i].stage;
      s.(hosts := HostsAfter(s.hosts, s.stamps, Stamped(stage.stamp), stage.view),
         stamps := StampsAfter(s.stamps, Stamped(stage.stamp), stage.view),
         generation := s.generation + 1,
         ops := s.ops - {i})
    case StartReload(j) =>
      s.(reloads := s.reloads[j := Reload(0, s.generation, NotYet, s.generation, 0)])
    case LoadAll(j) =>
      s.(reloads := s.reloads[j := s.reloads[j].(loaded := Loaded(AllPrepared(env, s.rows)), loads := s.reloads[j].loads + 1)])
    case FinishReload(j) => Finished(s, j)
  }

  /**
   * No row that prepares is created under the id of a host whose removal has not taken its
   * stamp: ids of the hosts table may be given again, so this is up to who creates the host.
   */
  predicate Careful(env: Env, s: State, step: Step) {
    step.CommitRows? ==>
      forall i, h :: i in s.ops && AwaitsStamp(s.ops[i]) && h in s.ops[i].ids && h in step.changed ==>
        Prepare(env, step.changed[h]).Absent?
  }

  /** A removal that has not taken its stamp. */
  predicate AwaitsStamp(op: Op) {
    op.removal && op.stage.Committed?
  }

  ghost predicate Runs(env: Env, s: State, steps: seq<Step>, t: State)
    decreases |steps|
  {
    if steps == [] then s == t else Enabled(s, steps[0]) && Runs(env, Apply(env, s, steps[0]), steps[1..], t)
  }

  ghost predicate CarefulRun(env: Env, s: State, steps: seq<Step>)
    decreases |steps|
  {
    steps == [] || (Enabled(s, steps[0]) && Careful(env, s, steps[0]) && CarefulRun(env, Apply(env, s, steps[0]), steps[1..]))
  }

  // ------------------------------------------------------------------ the invariant, host by host

  function StampAt(s: State, h: HostId): nat {
    StampOf(s.stamps, h)
  }

  /** Some operation will still install an entry for the host. */
  ghost predicate Owed(ops: map<nat, Op>, stamps: Stamps, h: HostId) {
    exists i :: i in ops && h in ops[i].ids && (ops[i].stage.Committed? || ops[i].stage.stamp >= StampOf(stamps, h))
  }

  /** Some operation on the host has, or will take, a larger stamp. */
  ghost predicate OwedAfter(ops: map<nat, Op>, h: HostId, stamp: nat) {
    exists i :: i in ops && h in ops[i].ids && (ops[i].stage.Committed? || ops[i].stage.stamp > stamp)
  }

  ghost predicate CacheAt(env: Env, s: State, h: HostId) {
    || Lookup(s.hosts, h) == Wanted(env, s.rows, h)
    || Owed(s.ops, s.stamps, h)
    || (s.settingUp && h in s.rows && StampAt(s, h) <= 1)
  }

  ghost predicate ViewAt(env: Env, s: State, h: HostId, i: nat)
    requires i in s.ops
  {
    var op := s.ops[i];
    op.stage.Viewed? && h in op.stage.view && op.stage.stamp >= StampAt(s, h) ==>
      op.stage.view[h] == Wanted(env, s.rows, h) || OwedAfter(s.ops, h, op.stage.stamp)
  }

  ghost predicate LoadedAt(env: Env, s: State, h: HostId, j: nat)
    requires j in s.reloads
  {
    var r := s.reloads[j];
    r.loaded.Loaded? && r.seen == s.generation ==>
      Lookup(r.loaded.hosts, h) == Wanted(env, s.rows, h) || Owed(s.ops, s.stamps, h)
  }

  /** Stamps in use were handed out, and views are of the operation's hosts. */
  ghost predicate StampsAreHandedOut(ops: map<nat, Op>, stamps: Stamps, stamp: nat) {
    && 1 <= stamp
    && (forall h :: StampOf(stamps, h) <= stamp)
    && (forall i :: i in ops && !ops[i].stage.Committed? ==> ops[i].stage.stamp <= stamp)
    && (forall i :: i in ops && ops[i].stage.Viewed? ==> ops[i].stage.view.Keys == ops[i].ids)
  }

  /** A removal that has not taken its stamp is right to remove. */
  ghost predicate RemovalsAreRight(env: Env, rows: Rows, ops: map<nat, Op>) {
    forall i, h :: i in ops && AwaitsStamp(ops[i]) && h in ops[i].ids ==> Wanted(env, rows, h).Absent?
  }

  /** A reload saw no generation yet to come, has attempts left, read once in each, and met a change in each that failed. */
  ghost predicate ReloadsAreWellFormed(reloads: map<nat, Reload>, generation: nat) {
    forall j :: j in reloads ==>
      && reloads[j].since + reloads[j].failures <= reloads[j].seen <= generation
      && reloads[j].failures < DB_RELOAD_ATTEMPTS
      && reloads[j].loads == reloads[j].failures + if reloads[j].loaded.Loaded? then 1 else 0
  }

  ghost predicate WellFormed(env: Env, s: State) {
    && StampsAreHandedOut(s.ops, s.stamps, s.stamp)
    && RemovalsAreRight(env, s.rows, s.ops)
    && ReloadsAreWellFormed(s.reloads, s.generation)
  }

  ghost predicate InvAt(env: Env, s: State, h: HostId) {
    && CacheAt(env, s, h)
    && (forall i :: i in s.ops ==> ViewAt(env, s, h, i))
    && (forall j :: j in s.reloads ==> LoadedAt(env, s, h, j))
  }

  ghost predicate Inv(env: Env, s: State) {
    WellFormed(env, s) && forall h :: InvAt(env, s, h)
  }

  // ------------------------------------------------------------------ each step keeps it

  lemma AllPreparedAt(env: Env, rows: Rows, h: HostId)
    ensures Lookup(AllPrepared(env, rows), h) == Wanted(env, rows, h)
  {
  }

  lemma OwedStays(s: State, t: State, h: HostId)
    requires s.stamps == t.stamps
    requires forall i :: i in s.ops ==> i in t.ops && t.ops[i].ids == s.ops[i].ids
    requires forall i :: i in s.ops ==> t.ops[i].stage.Committed? || (!s.ops[i].stage.Committed? && t.ops[i].stage.stamp == s.ops[i].stage.stamp)
    ensures Owed(s.ops, s.stamps, h) ==> Owed(t.ops, t.stamps, h)
    ensures forall stamp: nat :: OwedAfter(s.ops, h, stamp) ==> OwedAfter(t.ops, h, stamp)
  {
    forall stamp: nat | OwedAfter(s.ops, h, stamp)
      ensures OwedAfter(t.ops, h, stamp)
    {
      var i :| i in s.ops && h in s.ops[i].ids && (s.ops[i].stage.Committed? || s.ops[i].stage.stamp > stamp);
      assert i in t.ops;
    }
    if Owed(s.ops, s.stamps, h) {
      var i :| i in s.ops && h in s.ops[i].ids && (s.ops[i].stage.Committed? || s.ops[i].stage.stamp >= StampAt(s, h));
      assert i in t.ops;
    }
  }

  /** A commit leaves a new operation owing every host it changed. */
  lemma CommitKeeps(env: Env, s: State, step: Step, h: HostId)
    requires InvAt(env, s, h) && Enabled(s, step) && (step.CommitRows? || step.CommitDeletes?)
    ensures InvAt(env, Apply(env, s, step), h)
  {
    var t := Apply(env, s, step);
    OwedStays(s, t, h);
    if step.CommitRows? && h in step.ids {
      assert t.ops[step.i].stage.Committed? && h in t.ops[step.i].ids;
      assert Owed(t.ops, t.stamps, h) && forall stamp: nat :: OwedAfter(t.ops, h, stamp);
    } else if step.CommitDeletes? && h in step.removals.Values {
      var k :| k in step.removals && step.removals[k] == h;
      assert t.ops[k] == Op(true, {h}, Committed);
      assert Owed(t.ops, t.stamps, h) && forall stamp: nat :: OwedAfter(t.ops, h, stamp);
    } else {
      assert Wanted(env, s.rows, h) == Wanted(env, t.rows, h);
    }
    forall i | i in t.ops
      ensures ViewAt(env, t, h, i)
    {
      assert i in s.ops ==> ViewAt(env, s, h, i);
    }
    forall j | j in t.reloads
      ensures LoadedAt(env, t, h, j)
    {
      assert LoadedAt(env, s, h, j);
    }
  }

  /** Setup reads every row under stamp 1: what it was to install it still will. */
  lemma SetupKeeps(env: Env, s: State, step: Step, h: HostId)
    requires InvAt(env, s, h) && Enabled(s, step) && step.ReadForSetup?
    ensures InvAt(env, Apply(env, s, step), h)
  {
    var t := Apply(env, s, step);
    OwedStays(s, t, h);
    assert t.ops[step.i].ids == s.rows.Keys && t.ops[step.i].stage.stamp == 1;
    forall i | i in t.ops
      ensures ViewAt(env, t, h, i)
    {
      assert i in s.ops ==> ViewAt(env, s, h, i);
    }
    forall j | j in t.reloads
      ensures LoadedAt(env, t, h, j)
    {
      assert LoadedAt(env, s, h, j);
    }
  }

  /** The new stamp is larger than all others, so it owes as much as having none. */
  lemma StampStillOwes(env: Env, s: State, step: Step, h: HostId)
    requires WellFormed(env, s) && Enabled(s, step) && step.TakeStamp?
    ensures var t := Apply(env, s, step);
      && (Owed(s.ops, s.stamps, h) ==> Owed(t.ops, t.stamps, h))
      && forall stamp: nat :: stamp <= s.stamp && OwedAfter(s.ops, h, stamp) ==> OwedAfter(t.ops, h, stamp)
  {
    var t := Apply(env, s, step);
    assert t.ops[step.i].ids == s.ops[step.i].ids && t.ops[step.i].stage.stamp == s.stamp + 1;
    assert StampAt(s, h) <= s.stamp;
    if Owed(s.ops, s.stamps, h) {
      var k :| k in s.ops && h in s.ops[k].ids && (s.ops[k].stage.Committed? || s.ops[k].stage.stamp >= StampAt(s, h));
      assert k in t.ops && h in t.ops[k].ids;
    }
    forall stamp: nat | stamp <= s.stamp && OwedAfter(s.ops, h, stamp)
      ensures OwedAfter(t.ops, h, stamp)
    {
      var k :| k in s.ops && h in s.ops[k].ids && (s.ops[k].stage.Committed? || s.ops[k].stage.stamp > stamp);
      assert k in t.ops && h in t.ops[k].ids;
    }
  }

  lemma StampKeeps(env: Env, s: State, step: Step, h: HostId)
    requires WellFormed(env, s) && InvAt(env, s, h) && Enabled(s, step) && step.TakeStamp?
    ensures InvAt(env, Apply(env, s, step), h)
  {
    var t := Apply(env, s, step);
    StampStillOwes(env, s, step, h);
    forall i | i in t.ops
      ensures ViewAt(env, t, h, i)
    {
      assert ViewAt(env, s, h, i);
      assert i != step.i && s.ops[i].stage.Viewed? ==> s.ops[i].stage.stamp <= s.stamp;
    }
    forall j | j in t.reloads
      ensures LoadedAt(env, t, h, j)
    {
      assert LoadedAt(env, s, h, j);
    }
  }

  lemma ReadKeeps(env: Env, s: State, step: Step, h: HostId)
    requires InvAt(env, s, h) && Enabled(s, step) && step.ReadAgain?
    ensures InvAt(env, Apply(env, s, step), h)
  {
    var t := Apply(env, s, step);
    OwedStays(s, t, h);
    forall i | i in t.ops
      ensures ViewAt(env, t, h, i)
    {
      assert ViewAt(env, s, h, i);
    }
    forall j | j in t.reloads
      ensures LoadedAt(env, t, h, j)
    {
      assert LoadedAt(env, s, h, j);
    }
  }

  /** An installed entry is the wanted one, or an operation with a larger stamp is still to come. */
  lemma InstallKeeps(env: Env, s: State, step: Step, h: HostId)
    requires WellFormed(env, s) && InvAt(env, s, h) && Enabled(s, step) && step.Install?
    ensures InvAt(env, Apply(env, s, step), h)
  {
    var t := Apply(env, s, step);
    InstallKeepsCache(env, s, step, h);
    InstallKeepsViews(env, s, step, h);
    assert forall j :: j in t.reloads ==> t.reloads[j].seen < t.generation;
  }

  lemma InstallKeepsViews(env: Env, s: State, step: Step, h: HostId)
    requires WellFormed(env, s) && InvAt(env, s, h) && Enabled(s, step) && step.Install?
    ensures forall i :: i in Apply(env, s, step).ops ==> ViewAt(env, Apply(env, s, step), h, i)
  {
    var t := Apply(env, s, step);
    var stage := s.ops[step.i].stage;
    assert stage.view.Keys == s.ops[step.i].ids;
    var claimed := h in stage.view && stage.stamp >= StampAt(s, h);
    assert StampAt(t, h) == if claimed then stage.stamp else StampAt(s, h);
    forall i | i in t.ops
      ensures ViewAt(env, t, h, i)
    {
      assert ViewAt(env, s, h, i);
      var here := s.ops[i].stage;
      if here.Viewed? && OwedAfter(s.ops, h, here.stamp) {
        var k :| k in s.ops && h in s.ops[k].ids && (s.ops[k].stage.Committed? || s.ops[k].stage.stamp > here.stamp);
        assert k != step.i ==> k in t.ops && OwedAfter(t.ops, h, here.stamp);
      }
    }
  }

  /** A host that the install does not claim stays as it is. */
  lemma UnclaimedKeepsCache(env: Env, s: State, step: Step, h: HostId)
    requires WellFormed(env, s) && InvAt(env, s, h) && Enabled(s, step) && step.Install?
    requires !(h in s.ops[step.i].stage.view && s.ops[step.i].stage.stamp >= StampAt(s, h))
    ensures CacheAt(env, Apply(env, s, step), h)
  {
    var t := Apply(env, s, step);
    assert s.ops[step.i].stage.view.Keys == s.ops[step.i].ids;
    assert StampAt(t, h) == StampAt(s, h) && Lookup(t.hosts, h) == Lookup(s.hosts, h);
    if Owed(s.ops, s.stamps, h) {
      var k :| k in s.ops && h in s.ops[k].ids && (s.ops[k].stage.Committed? || s.ops[k].stage.stamp >= StampAt(s, h));
      assert k in t.ops && h in t.ops[k].ids;
    }
  }

  lemma InstallKeepsCache(env: Env, s: State, step: Step, h: HostId)
    requires WellFormed(env, s) && InvAt(env, s, h) && Enabled(s, step) && step.Install?
    ensures CacheAt(env, Apply(env, s, step), h)
  {
    var t := Apply(env, s, step);
    var stage := s.ops[step.i].stage;
    if h in stage.view && stage.stamp >= StampAt(s, h) {
      assert ViewAt(env, s, h, step.i);
      assert StampAt(t, h) == stage.stamp && Lookup(t.hosts, h) == stage.view[h];
      if OwedAfter(s.ops, h, stage.stamp) {
        var k :| k in s.ops && h in s.ops[k].ids && (s.ops[k].stage.Committed? || s.ops[k].stage.stamp > stage.stamp);
        assert k in t.ops && h in t.ops[k].ids;
      }
    } else {
      UnclaimedKeepsCache(env, s, step, h);
    }
  }

  lemma BeginReloadKeeps(env: Env, s: State, step: Step, h: HostId)
    requires InvAt(env, s, h) && Enabled(s, step) && (step.StartReload? || step.LoadAll?)
    ensures InvAt(env, Apply(env, s, step), h)
  {
    var t := Apply(env, s, step);
    AllPreparedAt(env, s.rows, h);
    assert Owed(s.ops, s.stamps, h) ==> Owed(t.ops, t.stamps, h);
    SameOpsKeepViews(env, s, t, h);
    forall j | j in t.reloads
      ensures LoadedAt(env, t, h, j)
    {
      assert j in s.reloads ==> LoadedAt(env, s, h, j);
    }
  }

  lemma SameOpsKeepViews(env: Env, s: State, t: State, h: HostId)
    requires s.rows == t.rows && s.stamps == t.stamps && s.ops == t.ops
    requires forall i :: i in s.ops ==> ViewAt(env, s, h, i)
    ensures forall i :: i in t.ops ==> ViewAt(env, t, h, i)
  {
    OwedStays(s, t, h);
    forall i | i in t.ops
      ensures ViewAt(env, t, h, i)
    {
      assert ViewAt(env, s, h, i);
    }
  }

  /** A reload that installs saw every change there was; one that does not leaves the hosts alone. */
  lemma FinishReloadKeeps(env: Env, s: State, j: nat, h: HostId)
    requires WellFormed(env, s) && InvAt(env, s, h) && Enabled(s, FinishReload(j))
    ensures InvAt(env, Finished(s, j), h)
  {
    var t := Finished(s, j);
    SameOpsKeepViews(env, s, t, h);
    if s.reloads[j].seen == s.generation {
      assert LoadedAt(env, s, h, j);
      assert CacheAt(env, t, h);
      assert forall k :: k in t.reloads ==> t.reloads[k].seen < t.generation;
    } else {
      assert t.hosts == s.hosts;
      LoadedStays(env, s, t, h, j);
    }
  }

  lemma LoadedStays(env: Env, s: State, t: State, h: HostId, j: nat)
    requires s.rows == t.rows && s.stamps == t.stamps && s.ops == t.ops && s.generation == t.generation
    requires forall k :: k in t.reloads ==> if k == j then t.reloads[k].loaded.NotYet? else k in s.reloads && s.reloads[k] == t.reloads[k]
    requires forall k :: k in s.reloads ==> LoadedAt(env, s, h, k)
    ensures forall k :: k in t.reloads ==> LoadedAt(env, t, h, k)
  {
    forall k | k in t.reloads
      ensures LoadedAt(env, t, h, k)
    {
      assert k != j ==> LoadedAt(env, s, h, k);
    }
  }

  lemma InstallStaysWellFormed(env: Env, s: State, i: nat)
    requires WellFormed(env, s) && Enabled(s, Install(i))
    ensures WellFormed(env, Apply(env, s, Install(i)))
  {
    var t := Apply(env, s, Install(i));
    forall h: HostId
      ensures StampAt(t, h) <= t.stamp
    {
      assert StampAt(s, h) <= s.stamp;
    }
  }

  lemma CommitStaysWellFormed(env: Env, s: State, step: Step)
    requires WellFormed(env, s) && Enabled(s, step) && Careful(env, s, step)
    requires step.CommitRows? || step.CommitDeletes?
    ensures WellFormed(env, Apply(env, s, step))
  {
    var t := Apply(env, s, step);
    forall i, h | i in t.ops && AwaitsStamp(t.ops[i]) && h in t.ops[i].ids
      ensures Wanted(env, t.rows, h).Absent?
    {
      if i in s.ops {
        assert Wanted(env, s.rows, h).Absent?;
      } else {
        assert h == step.removals[i] && h in step.removals.Values;
      }
    }
  }

  lemma OperationStaysWellFormed(env: Env, s: State, step: Step)
    requires WellFormed(env, s) && Enabled(s, step)
    requires step.TakeStamp? || step.ReadAgain? || step.ReadForSetup?
    ensures WellFormed(env, Apply(env, s, step))
  {
    var t := Apply(env, s, step);
    forall h: HostId
      ensures StampAt(t, h) <= t.stamp
    {
      assert StampAt(s, h) <= s.stamp;
    }
  }

  lemma BeginReloadStaysWellFormed(env: Env, s: State, step: Step)
    requires WellFormed(env, s) && Enabled(s, step) && (step.StartReload? || step.LoadAll?)
    ensures WellFormed(env, Apply(env, s, step))
  {
    assert ReloadsAreWellFormed(Apply(env, s, step).reloads, s.generation);
  }

  lemma FinishReloadStaysWellFormed(env: Env, s: State, j: nat)
    requires WellFormed(env, s) && Enabled(s, FinishReload(j))
    ensures WellFormed(env, Finished(s, j))
  {
    RetriesAreWellFormed(s.reloads, s.generation, j);
  }

  lemma RetriesAreWellFormed(reloads: map<nat, Reload>, generation: nat, j: nat)
    requires ReloadsAreWellFormed(reloads, generation) && j in reloads && reloads[j].loaded.Loaded?
    ensures ReloadsAreWellFormed(reloads - {j}, generation + 1)
    ensures reloads[j].seen != generation ==> ReloadsAreWellFormed(TryAgain(reloads, generation, j), generation)
  {
  }

  lemma StepKeeps(env: Env, s: State, step: Step)
    requires Inv(env, s) && Enabled(s, step) && Careful(env, s, step)
    ensures Inv(env, Apply(env, s, step))
  {
    if step.CommitRows? || step.CommitDeletes? {
      CommitStaysWellFormed(env, s, step);
    } else if step.Install? {
      InstallStaysWellFormed(env, s, step.i);
    } else if step.TakeStamp? || step.ReadAgain? || step.ReadForSetup? {
      OperationStaysWellFormed(env, s, step);
    } else if step.FinishReload? {
      FinishReloadStaysWellFormed(env, s, step.j);
    } else {
      BeginReloadStaysWellFormed(env, s, step);
    }
    forall h: HostId
      ensures InvAt(env, Apply(env, s, step), h)
    {
      assert InvAt(env, s, h);
      if step.CommitRows? || step.CommitDeletes? {
        CommitKeeps(env, s, step, h);
      } else if step.ReadForSetup? {
        SetupKeeps(env, s, step, h);
      } else if step.TakeStamp? {
        StampKeeps(env, s, step, h);
      } else if step.ReadAgain? {
        ReadKeeps(env, s, step, h);
      } else if step.Install? {
        InstallKeeps(env, s, step, h);
      } else if step.FinishReload? {
        FinishReloadKeeps(env, s, step.j, h);
      } else {
        BeginReloadKeeps(env, s, step, h);
      }
    }
  }

  lemma {:induction false} RunKeeps(env: Env, s: State, steps: seq<Step>, t: State)
    requires Inv(env, s) && Runs(env, s, steps, t) && CarefulRun(env, s, steps)
    ensures Inv(env, t)
    decreases |steps|
  {
    if steps != [] {
      StepKeeps(env, s, steps[0]);
      RunKeeps(env, Apply(env, s, steps[0]), steps[1..], t);
    }
  }

  /**
   * Whatever the interleaving of updates, removals and reloads, once the operations have
   * finished the cache holds for every host what its row prepares to, and nothing else.
   */
  lemma FinishedOperationsLeaveTheCacheRight(env: Env, s: State, steps: seq<Step>, t: State)
    requires Starts(s) && Runs(env, s, steps, t) && CarefulRun(env, s, steps)
    requires !t.settingUp && t.ops == map[]
    ensures t.hosts == AllPrepared(env, t.rows) && ServesRows(env, t.rows, t.hosts)
  {
    forall h: HostId
      ensures InvAt(env, s, h)
    {
    }
    RunKeeps(env, s, steps, t);
    forall h: HostId
      ensures Lookup(t.hosts, h) == Lookup(AllPrepared(env, t.rows), h)
    {
      assert InvAt(env, t, h);
      AllPreparedAt(env, t.rows, h);
    }
    SameLookups(t.hosts, AllPrepared(env, t.rows));
    AllPreparedServes(env, t.rows);
  }

  /**
   * A reload reads at most three times. It ends by installing what it read while nothing changed,
   * or is given up after the hosts changed at least three times since it started.
   */
  lemma ReloadEndsByRule(env: Env, s: State, j: nat)
    requires Inv(env, s) && Enabled(s, FinishReload(j))
    ensures var r, t := s.reloads[j], Finished(s, j);
      && r.loads <= 3
      && (r.seen == s.generation ==> j !in t.reloads && t.hosts == r.loaded.hosts)
      && (r.seen != s.generation ==> t.hosts == s.hosts)
      && (r.seen != s.generation && r.loads < 3 ==>
            j in t.reloads && t.reloads[j].loaded.NotYet? && t.reloads[j].seen == s.generation)
      && (r.seen != s.generation && r.loads == 3 ==> j !in t.reloads && r.since + 3 <= s.generation)
  {
  }

  /** A reload that nothing disturbs leaves the cache right, whatever it held before. */
  lemma UndisturbedReloadServes(env: Env, s: State, j: nat) returns (t: State)
    requires j !in s.reloads
    ensures Runs(env, s, [StartReload(j), LoadAll(j), FinishReload(j)], t)
    ensures ServesRows(env, t.rows, t.hosts) && t.rows == s.rows && t.ops == s.ops && t.reloads == s.reloads
  {
    var a := Apply(env, s, StartReload(j));
    var b := Apply(env, a, LoadAll(j));
    t := Apply(env, b, FinishReload(j));
    assert t.reloads == s.reloads;
    StepThenRuns(env, b, FinishReload(j), [], t);
    StepThenRuns(env, a, LoadAll(j), [FinishReload(j)], t);
    StepThenRuns(env, s, StartReload(j), [LoadAll(j), FinishReload(j)], t);
    assert [StartReload(j)] + [LoadAll(j), FinishReload(j)] == [StartReload(j), LoadAll(j), FinishReload(j)];
    AllPreparedServes(env, s.rows);
  }

  // ------------------------------------------------------------------ why the care is needed

  lemma StepThenRuns(env: Env, s: State, step: Step, rest: seq<Step>, t: State)
    requires Enabled(s, step) && Runs(env, Apply(env, s, step), rest, t)
    ensures Runs(env, s, [step] + rest, t)
  {
    assert ([step] + rest)[1..] == rest;
  }

  lemma {:induction false} RunsThenRuns(env: Env, s: State, first: seq<Step>, t: State, second: seq<Step>, u: State)
    requires Runs(env, s, first, t) && Runs(env, t, second, u)
    ensures Runs(env, s, first + second, u)
    decreases |first|
  {
    if first == [] {
      assert first + second == second;
    } else {
      RunsThenRuns(env, Apply(env, s, first[0]), first[1..], t, second, u);
      assert (first + second)[1..] == first[1..] + second;
    }
  }

  /** The state has the same rows, and its operations but the one that finished. */
  ghost predicate HasFinished(s: State, t: State, i: nat) {
    && t.rows == s.rows && t.settingUp == s.settingUp && t.ops == s.ops - {i}
    && StampsAreHandedOut(t.ops, t.stamps, t.stamp)
  }

  /** An operation with its view installs it. */
  lemma ViewedFinishes(env: Env, s: State, i: nat) returns (t: State)
    requires StampsAreHandedOut(s.ops, s.stamps, s.stamp) && i in s.ops && s.ops[i].stage.Viewed?
    ensures Runs(env, s, [Install(i)], t) && HasFinished(s, t, i)
  {
    t := Apply(env, s, Install(i));
    forall h: HostId
      ensures StampAt(t, h) <= t.stamp
    {
      assert StampAt(s, h) <= s.stamp;
    }
    StepThenRuns(env, s, Install(i), [], t);
  }

  lemma NumberedFinishes(env: Env, s: State, i: nat) returns (steps: seq<Step>, t: State)
    requires StampsAreHandedOut(s.ops, s.stamps, s.stamp) && i in s.ops && s.ops[i].stage.Numbered?
    ensures Runs(env, s, steps, t) && HasFinished(s, t, i)
  {
    var a := Apply(env, s, ReadAgain(i));
    t := ViewedFinishes(env, a, i);
    assert a.ops - {i} == s.ops - {i};
    StepThenRuns(env, s, ReadAgain(i), [Install(i)], t);
    steps := [ReadAgain(i)] + [Install(i)];
  }

  /** Whatever an operation still has to do, it can do at once. */
  lemma OperationFinishes(env: Env, s: State, i: nat) returns (steps: seq<Step>, t: State)
    requires StampsAreHandedOut(s.ops, s.stamps, s.stamp) && i in s.ops
    ensures Runs(env, s, steps, t) && HasFinished(s, t, i)
  {
    if s.ops[i].stage.Viewed? {
      t := ViewedFinishes(env, s, i);
      steps := [Install(i)];
    } else if s.ops[i].stage.Numbered? {
      steps, t := NumberedFinishes(env, s, i);
    } else {
      var a := TakesItsStamp(env, s, i);
      var rest: seq<Step>;
      if a.ops[i].stage.Viewed? {
        t := ViewedFinishes(env, a, i);
        rest := [Install(i)];
      } else {
        rest, t := NumberedFinishes(env, a, i);
      }
      StepThenRuns(env, s, TakeStamp(i), rest, t);
      steps := [TakeStamp(i)] + rest;
    }
  }

  lemma TakesItsStamp(env: Env, s: State, i: nat) returns (t: State)
    requires StampsAreHandedOut(s.ops, s.stamps, s.stamp) && i in s.ops && s.ops[i].stage.Committed?
    ensures t == Apply(env, s, TakeStamp(i)) && StampsAreHandedOut(t.ops, t.stamps, t.stamp)
    ensures t.rows == s.rows && t.settingUp == s.settingUp && i in t.ops && !t.ops[i].stage.Committed?
    ensures t.ops - {i} == s.ops - {i}
  {
    t := Apply(env, s, TakeStamp(i));
    forall h: HostId
      ensures StampAt(t, h) <= t.stamp
    {
      assert StampAt(s, h) <= s.stamp;
    }
  }

  /** All operations but one can finish. */
  lemma {:induction false} OthersFinish(env: Env, s: State, keep: nat) returns (steps: seq<Step>, t: State)
    requires StampsAreHandedOut(s.ops, s.stamps, s.stamp) && keep in s.ops
    ensures Runs(env, s, steps, t) && t.rows == s.rows && t.settingUp == s.settingUp
    ensures t.ops == map[keep := s.ops[keep]] && StampsAreHandedOut(t.ops, t.stamps, t.stamp)
    decreases |s.ops.Keys|
  {
    if i :| i in s.ops && i != keep {
      var first, a := OperationFinishes(env, s, i);
      assert a.ops.Keys == s.ops.Keys - {i};
      var second;
      second, t := OthersFinish(env, a, keep);
      RunsThenRuns(env, s, first, a, second, t);
      steps := first + second;
    } else {
      steps, t := [], s;
      assert s.ops.Keys == {keep};
    }
  }

  lemma {:induction false} UnusedKey(keys: set<nat>) returns (k: nat)
    ensures k !in keys && forall i :: i in keys ==> i < k
  {
    if keys == {} {
      return 0;
    }
    var i :| i in keys;
    k := UnusedKey(keys - {i});
    assert forall j :: j in keys ==> j == i || j in keys - {i};
    if k <= i {
      k := i + 1;
    }
  }

  /** Setup reads the rows if it has not. */
  lemma SetupReads(env: Env, s: State, keep: nat) returns (steps: seq<Step>, t: State)
    requires StampsAreHandedOut(s.ops, s.stamps, s.stamp) && keep in s.ops
    ensures Runs(env, s, steps, t) && t.rows == s.rows && !t.settingUp
    ensures keep in t.ops && t.ops[keep] == s.ops[keep] && StampsAreHandedOut(t.ops, t.stamps, t.stamp)
  {
    if !s.settingUp {
      return [], s;
    }
    var k := UnusedKey(s.ops.Keys);
    t := Apply(env, s, ReadForSetup(k));
    StepThenRuns(env, s, ReadForSetup(k), [], t);
    steps := [ReadForSetup(k)];
  }

  /** A removal that is all that is left takes its host out of the cache. */
  lemma LastRemovalRemoves(env: Env, s: State, i: nat, h: HostId) returns (t: State)
    requires StampsAreHandedOut(s.ops, s.stamps, s.stamp)
    requires i in s.ops && s.ops.Keys == {i} && AwaitsStamp(s.ops[i]) && h in s.ops[i].ids
    ensures Runs(env, s, [TakeStamp(i), Install(i)], t)
    ensures t.ops == map[] && t.rows == s.rows && t.settingUp == s.settingUp && h !in t.hosts
  {
    var a := Apply(env, s, TakeStamp(i));
    var view := AllAbsent(s.ops[i].ids);
    assert a.ops[i].stage == Viewed(s.stamp + 1, view);
    t := Apply(env, a, Install(i));
    assert StampAt(s, h) <= s.stamp;
    assert Lookup(t.hosts, h) == EntryAfter(s.hosts, s.stamps, Stamped(s.stamp + 1), view, h) == Absent;
    StepThenRuns(env, a, Install(i), [], t);
    StepThenRuns(env, s, TakeStamp(i), [Install(i)], t);
  }

  /** Every operation has finished, and a host whose row prepares has no entry. */
  ghost predicate LacksAHost(env: Env, s: State) {
    s.ops == map[] && !s.settingUp && exists h :: Wanted(env, s.rows, h).Present? && h !in s.hosts
  }

  lemma CommitKeepsStamps(env: Env, s: State, step: Step)
    requires StampsAreHandedOut(s.ops, s.stamps, s.stamp) && Enabled(s, step) && (step.CommitRows? || step.CommitDeletes?)
    ensures var t := Apply(env, s, step); StampsAreHandedOut(t.ops, t.stamps, t.stamp)
  {
  }

  /** The others finish first and the removal last. */
  lemma RemovalFinishesLast(env: Env, s: State, i: nat, h: HostId) returns (steps: seq<Step>, t: State)
    requires StampsAreHandedOut(s.ops, s.stamps, s.stamp) && Wanted(env, s.rows, h).Present?
    requires i in s.ops && AwaitsStamp(s.ops[i]) && h in s.ops[i].ids
    ensures Runs(env, s, steps, t) && LacksAHost(env, t)
  {
    var one, a := SetupReads(env, s, i);
    var two, b := OthersFinish(env, a, i);
    t := LastRemovalRemoves(env, b, i, h);
    var three := [TakeStamp(i), Install(i)];
    RunsThenRuns(env, a, two, b, three, t);
    RunsThenRuns(env, s, one, a, two + three, t);
    steps := one + (two + three);
  }

  /**
   * The care is needed exactly as stated: after any step that lacks it, from any state that
   * a run can be in, the other operations may finish first and the removal last, and then the
   * new host's row is in the database and its entry not in the cache.
   */
  lemma CarelessStepCanLoseTheHost(env: Env, s: State, step: Step)
    requires Inv(env, s) && Enabled(s, step) && !Careful(env, s, step)
    ensures exists steps, t :: Runs(env, Apply(env, s, step), steps, t) && LacksAHost(env, t)
  {
    var i, h :| i in s.ops && AwaitsStamp(s.ops[i]) && h in s.ops[i].ids && h in step.changed
                && Prepare(env, step.changed[h]).Present?;
    CommitKeepsStamps(env, s, step);
    var steps, t := RemovalFinishesLast(env, Apply(env, s, step), i, h);
  }

  /** Such a step is reached: from any start, deleting a host and creating another under its id. */
  lemma ReusedIdLosesTheHost(env: Env, s: State, h: HostId, row: Row)
    requires Starts(s) && Prepare(env, row).Present?
    ensures exists steps, t :: Runs(env, s, steps, t) && LacksAHost(env, t)
  {
    var delete, create := CommitDeletes(map[0 := h]), CommitRows(1, map[h := row], {h});
    var a := Apply(env, s, delete);
    StartsRight(env, s);
    StepKeeps(env, s, delete);
    assert 0 in a.ops && a.ops[0] == Op(true, {h}, Committed) && 1 !in a.ops;
    RecreatingIsCareless(env, a, h, row);
    CarelessStepCanLoseTheHost(env, a, create);
    var rest, t :| Runs(env, Apply(env, a, create), rest, t) && LacksAHost(env, t);
    StepThenRuns(env, a, create, rest, t);
    StepThenRuns(env, s, delete, [create] + rest, t);
    assert Runs(env, s, [delete] + ([create] + rest), t);
  }

  lemma RecreatingIsCareless(env: Env, s: State, h: HostId, row: Row)
    requires 0 in s.ops && AwaitsStamp(s.ops[0]) && h in s.ops[0].ids && Prepare(env, row).Present?
    ensures !Careful(env, s, CommitRows(1, map[h := row], {h}))
  {
    var create := CommitRows(1, map[h := row], {h});
    assert h in create.changed && create.changed[h] == row;
  }

  lemma StartsRight(env: Env, s: State)
    requires Starts(s)
    ensures Inv(env, s)
  {
    forall h: HostId
      ensures InvAt(env, s, h)
    {
    }
  }
}
