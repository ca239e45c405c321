/**
 * The core manager (app/core/manager.py, class CoreManager): the cores in memory, the index of
 * their inbounds by tag, and reloads from the database guarded by a generation.
 */
module CoreIndex {
  import opened NatSets

  type CoreId = nat
  type Tag = string
  type Inbound = string

  /** What a core defines: its inbounds by tag. */
  type Core = map<Tag, Inbound>
  type Cores = map<CoreId, Core>

  // ------------------------------------------------------------------ the index

  /** The cores that define a tag. */
  function Definers(cores: Cores, tag: Tag): set<CoreId> {
    set id | id in cores && tag in cores[id]
  }

  ghost predicate IsHighest(ids: set<CoreId>, id: CoreId) {
    id in ids && forall other :: other in ids ==> other <= id
  }

  /** Each tag resolves to the highest core id that defines it, and no other tag is listed. */
  ghost predicate IsIndexOf(cores: Cores, index: Core) {
    && (forall tag :: tag in index <==> Definers(cores, tag) != {})
    && (forall tag, id :: tag in index && IsHighest(Definers(cores, tag), id) ==> index[tag] == cores[id][tag])
  }

  /** The cores in the given ids only. */
  function Among(cores: Cores, ids: set<CoreId>): Cores {
    map id | id in cores && id in ids :: cores[id]
  }

  /** Adding a core above all others overrides the tags it defines. */
  lemma HighestWins(cores: Cores, done: set<CoreId>, id: CoreId, index: Core)
    requires IsIndexOf(Among(cores, done), index)
    requires id in cores && forall other :: other in done ==> other < id
    ensures IsIndexOf(Among(cores, done + {id}), index + cores[id])
  {
    var before, after := Among(cores, done), Among(cores, done + {id});
    forall tag
      ensures tag in index + cores[id] <==> Definers(after, tag) != {}
      ensures forall k :: tag in index + cores[id] && IsHighest(Definers(after, tag), k) ==> (index + cores[id])[tag] == after[k][tag]
    {
      if tag in cores[id] {
        assert id in Definers(after, tag);
      } else {
        assert Definers(after, tag) == Definers(before, tag);
      }
    }
  }

  lemma {:induction false} HighestExists(ids: set<CoreId>) returns (id: CoreId)
    requires ids != {}
    ensures IsHighest(ids, id)
    decreases |ids|
  {
    var some :| some in ids;
    var rest := ids - {some};
    if rest == {} {
      assert ids == {some};
      return some;
    }
    id := HighestExists(rest);
    assert ids == rest + {some};
    if id < some {
      id := some;
    }
  }

  /** There is only one such index, whatever order the cores arrived in. */
  lemma IndexIsUnique(cores: Cores, a: Core, b: Core)
    requires IsIndexOf(cores, a) && IsIndexOf(cores, b)
    ensures a == b
  {
    forall tag | tag in a
      ensures tag in b && a[tag] == b[tag]
    {
      var id := HighestExists(Definers(cores, tag));
    }
  }

  /** _build_inbound_index: an update of the index per core, in the order of ids. */
  method BuildInboundIndex(cores: Cores) returns (index: Core)
    ensures IsIndexOf(cores, index)
  {
    index := map[];
    var left := cores.Keys;
    while left != {}
      invariant left <= cores.Keys
      invariant forall done, id :: done in cores.Keys - left && id in left ==> done < id
      invariant IsIndexOf(Among(cores, cores.Keys - left), index)
      decreases left
    {
      var id := Least(left);
      HighestWins(cores, cores.Keys - left, id, index);
      assert cores.Keys - left + {id} == cores.Keys - (left - {id});
      index := index + cores[id];
      left := left - {id};
    }
    assert Among(cores, cores.Keys - left) == cores;
  }

  // ------------------------------------------------------------------ the manager in place

  class CoreManager {
    var cores: Cores
    var inboundsByTag: Core
    var generation: nat

    constructor ()
      ensures cores == map[] && inboundsByTag == map[] && generation == 0
    {
      cores, inboundsByTag, generation := map[], map[], 0;
    }

    method UpdateInbounds()
      modifies this`inboundsByTag
      ensures IsIndexOf(cores, inboundsByTag)
    {
      inboundsByTag := BuildInboundIndex(cores);
    }

    /** The locked part of _update_core_local; a core that does not validate changes nothing. */
    method UpdateCore(id: CoreId, core: Core)
      modifies this`cores, this`generation
      ensures cores == old(cores)[id := core] && generation == old(generation) + 1
    {
      cores := cores[id := core];
      generation := generation + 1;
    }

    /** _update_core_local with a core that validates: the index follows the cores. */
    method UpdateCoreLocal(id: CoreId, core: Core)
      modifies this
      ensures cores == old(cores)[id := core] && generation == old(generation) + 1
      ensures IsIndexOf(cores, inboundsByTag)
    {
      UpdateCore(id, core);
      UpdateInbounds();
    }

    /** The locked part of _remove_core_local. */
    method RemoveCore(id: CoreId) returns (removed: bool)
      modifies this`cores, this`generation
      ensures removed == (id in old(cores))
      ensures cores == old(cores) - {id}
      ensures generation == old(generation) + if removed then 1 else 0
    {
      if id !in cores {
        return false;
      }
      cores := cores - {id};
      generation := generation + 1;
      return true;
    }

    /** The locked part of _install_cores. */
    method InstallCores(loaded: Cores, seen: nat) returns (installed: bool)
      modifies this`cores, this`generation
      ensures installed == (seen == old(generation))
      ensures cores == (if installed then loaded else old(cores))
      ensures generation == old(generation) + if installed then 1 else 0
    {
      if seen != generation {
        return false;
      }
      cores := loaded;
      generation := generation + 1;
      return true;
    }
  }

  // ------------------------------------------------------------------ interleaved operations

  /**
   * A reload: failed attempts so far, the generation it saw, and what it then read. The generation it
   * started at and how often it has read are history.
   */
  datatype Reload =
    | Reading(failures: nat, seen: nat, since: nat, loads: nat)
    | Loaded(failures: nat, seen: nat, since: nat, loads: nat, cores: Cores)

  const DB_RELOAD_ATTEMPTS: nat := 3

  /** `owed` counts operations that changed the cores and have not rebuilt the index. */
  datatype State = State(cores: Cores, index: Core, generation: nat, owed: nat, reloads: map<nat, Reload>)

  datatype Step =
    | Update(id: CoreId, core: Core)
    | Remove(id: CoreId)
    | Refresh(index: Core)
    | StartReload(j: nat)
    | Load(j: nat, cores: Cores)
    | FinishReload(j: nat)

  ghost predicate Enabled(s: State, step: Step) {
    match step
    case Update(_, _) => true
    case Remove(_) => true
    case Refresh(index) => s.owed > 0 && IsIndexOf(s.cores, index)
    case StartReload(j) => j !in s.reloads
    case Load(j, _) => j in s.reloads && s.reloads[j].Reading?
    case FinishReload(j) => j in s.reloads && s.reloads[j].Loaded?
  }

  /** The end of one attempt of _reload_from_db. */
  function Finished(s: State, j: nat): State
    requires j in s.reloads && s.reloads[j].Loaded?
  {
    var r := s.reloads[j];
    if r.seen == s.generation then
      s.(cores := r.cores, generation := s.generation + 1, owed := s.owed + 1, reloads := s.reloads - {j})
    else if r.failures + 1 < DB_RELOAD_ATTEMPTS then
      s.(reloads := s.reloads[j := Reading(r.failures + 1, s.generation, r.since, r.loads)])
    else
      s.(reloads := s.reloads - {j})
  }

  ghost function Apply(s: State, step: Step): State
    requires Enabled(s, step)
  {
    match step
    case Update(id, core) => s.(cores := s.cores[id := core], generation := s.generation + 1, owed := s.owed + 1)
    case Remove(id) =>
      if id in s.cores then
        s.(cores := s.cores - {id}, generation := s.generation + 1, owed := s.owed + 1)
      else
        s
    case Refresh(index) => s.(index := index, owed := s.owed - 1)
    case StartReload(j) => s.(reloads := s.reloads[j := Reading(0, s.generation, s.generation, 0)])
    case Load(j, cores) =>
      var r := s.reloads[j];
      s.(reloads := s.reloads[j := Loaded(r.failures, r.seen, r.since, r.loads + 1, cores)])
    case FinishReload(j) => Finished(s, j)
  }

  ghost predicate Runs(s: State, steps: seq<Step>, t: State)
    decreases |steps|
  {
    if steps == [] then s == t else Enabled(s, steps[0]) && Runs(Apply(s, steps[0]), steps[1..], t)
  }

  ghost predicate IsFresh(s: State) {
    s.owed > 0 || IsIndexOf(s.cores, s.index)
  }

  lemma {:induction false} RunStaysFresh(s: State, steps: seq<Step>, t: State)
    requires IsFresh(s) && Runs(s, steps, t)
    ensures IsFresh(t)
    decreases |steps|
  {
    if steps != [] {
      RunStaysFresh(Apply(s, steps[0]), steps[1..], t);
    }
  }

  /** Once every operation has finished, the index is the one index of the cores in memory. */
  lemma FinishedOperationsLeaveTheIndexRight(s: State, steps: seq<Step>, t: State)
    requires s == State(map[], map[], 0, 0, map[]) && Runs(s, steps, t) && t.owed == 0
    ensures IsIndexOf(t.cores, t.index)
  {
    assert IsIndexOf(s.cores, s.index);
    RunStaysFresh(s, steps, t);
  }

  lemma {:induction false} IndexExists(cores: Cores, ids: set<CoreId>) returns (index: Core)
    requires ids <= cores.Keys
    ensures IsIndexOf(Among(cores, ids), index)
    decreases |ids|
  {
    if ids == {} {
      return map[];
    }
    var id := HighestExists(ids);
    var below := IndexExists(cores, ids - {id});
    HighestWins(cores, ids - {id}, id, below);
    assert ids - {id} + {id} == ids;
    index := below + cores[id];
  }

  /** Whatever is owed, the operations can finish, and the index is then right. */
  lemma {:induction false} OperationsCanFinish(s: State) returns (steps: seq<Step>, t: State)
    requires IsFresh(s)
    ensures Runs(s, steps, t) && t.owed == 0 && t.cores == s.cores && IsIndexOf(t.cores, t.index)
    decreases s.owed
  {
    if s.owed == 0 {
      return [], s;
    }
    var index := IndexExists(s.cores, s.cores.Keys);
    assert Among(s.cores, s.cores.Keys) == s.cores;
    var rest: seq<Step>;
    rest, t := OperationsCanFinish(Apply(s, Refresh(index)));
    steps := [Refresh(index)] + rest;
    assert steps[1..] == rest;
  }

  // ------------------------------------------------------------------ what is in memory

  ghost predicate Touches(step: Step, id: CoreId) {
    step.FinishReload? || ((step.Update? || step.Remove?) && step.id == id)
  }

  lemma {:induction false} UntouchedCoreStays(s: State, steps: seq<Step>, t: State, id: CoreId)
    requires Runs(s, steps, t) && forall i :: 0 <= i < |steps| ==> !Touches(steps[i], id)
    ensures id in t.cores <==> id in s.cores
    ensures id in t.cores ==> t.cores[id] == s.cores[id]
    decreases |steps|
  {
    if steps != [] {
      assert !Touches(steps[0], id);
      UntouchedCoreStays(Apply(s, steps[0]), steps[1..], t, id);
    }
  }

  /** A core is what it was last updated to, and one that was removed last is not there, until a reload ends. */
  lemma LastChangeIsHeld(s: State, change: Step, steps: seq<Step>, t: State)
    requires change.Update? || change.Remove?
    requires Runs(s, [change] + steps, t) && forall i :: 0 <= i < |steps| ==> !Touches(steps[i], change.id)
    ensures change.Update? ==> change.id in t.cores && t.cores[change.id] == change.core
    ensures change.Remove? ==> change.id !in t.cores
  {
    assert ([change] + steps)[1..] == steps;
    UntouchedCoreStays(Apply(s, change), steps, t, change.id);
  }

  // ------------------------------------------------------------------ how a reload ends

  /** A reload met a change in each attempt that failed, has attempts left, and read once in each. */
  ghost predicate ReloadsAreWellFormed(s: State) {
    forall j :: j in s.reloads ==>
      && s.reloads[j].since + s.reloads[j].failures <= s.reloads[j].seen <= s.generation
      && s.reloads[j].failures < DB_RELOAD_ATTEMPTS
      && s.reloads[j].loads == s.reloads[j].failures + if s.reloads[j].Loaded? then 1 else 0
  }

  lemma {:induction false} RunKeepsReloads(s: State, steps: seq<Step>, t: State)
    requires ReloadsAreWellFormed(s) && Runs(s, steps, t)
    ensures ReloadsAreWellFormed(t)
    decreases |steps|
  {
    if steps != [] {
      RunKeepsReloads(Apply(s, steps[0]), steps[1..], t);
    }
  }

  /**
   * In every run a reload reads at most three times, and ends by installing what it read while
   * nothing changed, or is given up after the cores changed at least three times since it started.
   */
  lemma ReloadEndsByRule(steps: seq<Step>, s: State, j: nat)
    requires Runs(State(map[], map[], 0, 0, map[]), steps, s) && Enabled(s, FinishReload(j))
    ensures var r, t := s.reloads[j], Finished(s, j);
      && r.loads <= 3
      && (r.seen == s.generation ==> j !in t.reloads && t.cores == r.cores)
      && (r.seen != s.generation ==> t.cores == s.cores && t.index == s.index)
      && (r.seen != s.generation && r.loads < 3 ==>
            j in t.reloads && t.reloads[j].Reading? && t.reloads[j].seen == s.generation)
      && (r.seen != s.generation && r.loads == 3 ==> j !in t.reloads && r.since + 3 <= s.generation)
  {
    RunKeepsReloads(State(map[], map[], 0, 0, map[]), steps, s);
  }

  // ------------------------------------------------------------------ what a reload overwrites

  /** The step changed the cores in memory: an update, a removal of a core held, or another reload. */
  ghost predicate TakesEffect(s: State, step: Step)
    requires Enabled(s, step)
  {
    || step.Update?
    || (step.Remove? && step.id in s.cores)
    || (step.FinishReload? && s.reloads[step.j].seen == s.generation)
  }

  ghost predicate SomethingTakesEffect(s: State, steps: seq<Step>, t: State)
    requires Runs(s, steps, t)
    decreases |steps|
  {
    steps != [] && (TakesEffect(s, steps[0]) || SomethingTakesEffect(Apply(s, steps[0]), steps[1..], t))
  }

  lemma {:induction false} GenerationCountsEffects(s: State, steps: seq<Step>, t: State)
    requires Runs(s, steps, t)
    ensures s.generation <= t.generation
    ensures s.generation < t.generation <==> SomethingTakesEffect(s, steps, t)
    ensures s.generation == t.generation ==> s.cores == t.cores
    decreases |steps|
  {
    if steps != [] {
      GenerationCountsEffects(Apply(s, steps[0]), steps[1..], t);
    }
  }

  lemma {:induction false} AttemptKeepsItsGeneration(s: State, steps: seq<Step>, t: State, j: nat)
    requires Runs(s, steps, t) && j in s.reloads && FinishReload(j) !in steps
    ensures j in t.reloads && t.reloads[j].seen == s.reloads[j].seen
    decreases |steps|
  {
    if steps != [] {
      assert steps[0] in steps;
      AttemptKeepsItsGeneration(Apply(s, steps[0]), steps[1..], t, j);
    }
  }

  /**
   * A reload attempt that saw the generation of `s` replaces the cores exactly when nothing
   * took effect while it was reading; otherwise the cores in memory stay as they are.
   */
  lemma ReloadInstallsExactlyWhenNothingChanged(s: State, steps: seq<Step>, t: State, j: nat)
    requires j in s.reloads && s.reloads[j].seen == s.generation
    requires Runs(s, steps, t) && FinishReload(j) !in steps && Enabled(t, FinishReload(j))
    ensures Finished(t, j).generation != t.generation <==> !SomethingTakesEffect(s, steps, t)
    ensures Finished(t, j).cores == if SomethingTakesEffect(s, steps, t) then t.cores else t.reloads[j].cores
  {
    GenerationCountsEffects(s, steps, t);
    AttemptKeepsItsGeneration(s, steps, t, j);
  }

  /**
   * A core that was removed while a reload which had read it was under way, and is not in
   * memory when the reload ends, stays out exactly when something took effect meanwhile.
   */
  lemma RemovedCoreStaysOutExactlyWhen(s: State, steps: seq<Step>, t: State, j: nat, id: CoreId)
    requires j in s.reloads && s.reloads[j].seen == s.generation
    requires Runs(s, steps, t) && FinishReload(j) !in steps && Enabled(t, FinishReload(j))
    requires Remove(id) in steps && id in t.reloads[j].cores && id !in t.cores
    ensures id !in Finished(t, j).cores <==> SomethingTakesEffect(s, steps, t)
  {
    ReloadInstallsExactlyWhenNothingChanged(s, steps, t, j);
  }

  /** The removal of a core that is held takes effect by itself, wherever in the run it comes. */
  lemma {:induction false} RemovingAHeldCoreTakesEffect(s: State, before: seq<Step>, a: State, id: CoreId, after: seq<Step>, t: State)
    requires Runs(s, before, a) && id in a.cores && Runs(Apply(a, Remove(id)), after, t)
    ensures Runs(s, before + [Remove(id)] + after, t) && SomethingTakesEffect(s, before + [Remove(id)] + after, t)
    decreases |before|
  {
    var steps := before + [Remove(id)] + after;
    if before == [] {
      assert steps[0] == Remove(id) && steps[1..] == after;
    } else {
      assert steps[0] == before[0] && steps[1..] == before[1..] + [Remove(id)] + after;
      RemovingAHeldCoreTakesEffect(Apply(s, before[0]), before[1..], a, id, after, t);
    }
  }

  /** So a reload under way never brings back a core that was held when it was removed. */
  lemma RemovalOfAHeldCoreSurvives(s: State, before: seq<Step>, a: State, id: CoreId, after: seq<Step>, t: State, j: nat)
    requires j in s.reloads && s.reloads[j].seen == s.generation
    requires Runs(s, before, a) && id in a.cores && Runs(Apply(a, Remove(id)), after, t)
    requires FinishReload(j) !in before + [Remove(id)] + after && Enabled(t, FinishReload(j))
    ensures Finished(t, j).cores == t.cores
  {
    RemovingAHeldCoreTakesEffect(s, before, a, id, after, t);
    ReloadInstallsExactlyWhenNothingChanged(s, before + [Remove(id)] + after, t, j);
  }

  /** The smallest case: a worker that never held the core gets it back from the reload. */
  lemma RemovalIsOverwritten(core: Core) returns (t: State)
    ensures Runs(State(map[], map[], 0, 0, map[]), [StartReload(0), Load(0, map[7 := core]), Remove(7), FinishReload(0)], t)
    ensures t.cores == map[7 := core]
  {
    var s := State(map[], map[], 0, 0, map[]);
    var a := Apply(s, StartReload(0));
    var b := Apply(a, Load(0, map[7 := core]));
    t := Finished(b, 0);
    assert Apply(b, Remove(7)) == b;
    var steps := [StartReload(0), Load(0, map[7 := core]), Remove(7), FinishReload(0)];
    assert steps[1..][1..][1..][1..] == [];
    assert Runs(b, steps[1..][1..], t);
  }
}
