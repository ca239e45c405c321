/**
 * Rolling the database back to a revision (app/fork/db_rollback.py): a loop of downgrades over
 * the graph of migrations, from any set of heads above the target to exactly the target.
 */
module Rollback {
  import opened NatSets

  /** A revision, named by its place in the order of revision names. */
  type Rev = nat

  /** The migration scripts: the revisions each one follows, and a depth that makes them acyclic. */
  datatype Graph = Graph(parents: map<Rev, set<Rev>>, depth: map<Rev, nat>) {
    ghost predicate Valid() {
      && depth.Keys == parents.Keys
      && forall r, p :: r in parents && p in parents[r] ==> p in parents && depth[p] < depth[r]
    }

    predicate Knows(r: Rev) {
      r in parents
    }
  }

  // ------------------------------------------------------------------ ancestors

  /** A revision with everything below it. */
  function Ancestors(g: Graph, r: Rev): set<Rev>
    requires g.Valid() && g.Knows(r)
    decreases g.depth[r]
  {
    {r} + set p, a | p in g.parents[r] && a in Ancestors(g, p) :: a
  }

  /** `a` is below `r`. */
  predicate Below(g: Graph, a: Rev, r: Rev)
    requires g.Valid()
  {
    g.Knows(r) && a in Ancestors(g, r) && a != r
  }

  lemma {:induction false} AncestorsAreKnown(g: Graph, a: Rev, r: Rev)
    requires g.Valid() && g.Knows(r) && a in Ancestors(g, r)
    ensures g.Knows(a) && (a == r || g.depth[a] < g.depth[r])
    decreases g.depth[r]
  {
    if a != r {
      var p :| p in g.parents[r] && a in Ancestors(g, p);
      AncestorsAreKnown(g, a, p);
    }
  }

  lemma {:induction false} AncestorsOfAncestors(g: Graph, a: Rev, b: Rev, r: Rev)
    requires g.Valid() && g.Knows(r) && b in Ancestors(g, r) && g.Knows(b) && a in Ancestors(g, b)
    ensures a in Ancestors(g, r)
    decreases g.depth[r]
  {
    if b != r {
      var p :| p in g.parents[r] && b in Ancestors(g, p);
      AncestorsOfAncestors(g, a, b, p);
    }
  }

  /** With a revision, everything below it is applied. */
  ghost predicate IsClosed(g: Graph, applied: set<Rev>)
    requires g.Valid()
  {
    && (forall r :: r in applied ==> g.Knows(r))
    && (forall r, a :: r in applied && a in Ancestors(g, r) ==> a in applied)
  }

  /** The applied revisions that nothing applied is above: what the version table holds. */
  function Heads(g: Graph, applied: set<Rev>): set<Rev>
    requires g.Valid()
  {
    set r | r in applied && forall s :: s in applied ==> !Below(g, r, s)
  }

  function Above(g: Graph, applied: set<Rev>, r: Rev): set<Rev>
    requires g.Valid()
  {
    set s | s in applied && Below(g, r, s)
  }

  lemma {:induction false} HeadAbove(g: Graph, applied: set<Rev>, r: Rev) returns (h: Rev)
    requires g.Valid() && IsClosed(g, applied) && r in applied
    ensures h in Heads(g, applied) && r in Ancestors(g, h)
    decreases |Above(g, applied, r)|
  {
    if r in Heads(g, applied) {
      return r;
    }
    var s :| s in applied && Below(g, r, s);
    forall x | x in applied && Below(g, s, x)
      ensures Below(g, r, x)
    {
      AncestorsOfAncestors(g, r, s, x);
      AncestorsAreKnown(g, r, s);
      AncestorsAreKnown(g, s, x);
    }
    assert s in Above(g, applied, r) && s !in Above(g, applied, s);
    FewerThan(Above(g, applied, s), Above(g, applied, r));
    h := HeadAbove(g, applied, s);
    AncestorsOfAncestors(g, r, s, h);
  }

  // ------------------------------------------------------------------ what the code computes

  datatype Refusal = UnknownTarget | UnknownHeads | NotAtOrAbove | CannotReduce | NoProgress | NotExactly

  datatype Removals = Remove(revisions: set<Rev>) | Refuse(why: Refusal)

  ghost function LineageOf(g: Graph, revisions: set<Rev>): set<Rev>
    requires g.Valid() && forall r :: r in revisions ==> g.Knows(r)
  {
    set r, a | r in revisions && a in Ancestors(g, r) :: a
  }

  /** _lineage. */
  method Lineage(g: Graph, revisions: set<Rev>) returns (lineage: set<Rev>)
    requires g.Valid() && forall r :: r in revisions ==> g.Knows(r)
    ensures lineage == LineageOf(g, revisions)
  {
    lineage := {};
    var left := revisions;
    while left != {}
      invariant left <= revisions
      invariant lineage == LineageOf(g, revisions - left)
      decreases left
    {
      var r :| r in left;
      assert LineageOf(g, revisions - (left - {r})) == LineageOf(g, revisions - left) + Ancestors(g, r);
      lineage := lineage + Ancestors(g, r);
      left := left - {r};
    }
    assert revisions - left == revisions;
  }

  /** revisions_to_remove: what has to go, or why the rollback is refused. */
  method RevisionsToRemove(g: Graph, heads: set<Rev>, target: Rev) returns (r: Removals)
    requires g.Valid()
    ensures r == Refuse(UnknownTarget) <==> !g.Knows(target)
    ensures r == Refuse(UnknownHeads) <==> g.Knows(target) && exists h :: h in heads && !g.Knows(h)
    ensures r == Refuse(NotAtOrAbove) <==>
              g.Knows(target) && (forall h :: h in heads ==> g.Knows(h)) && target !in LineageOf(g, heads)
    ensures r.Refuse? ==> r.why in {UnknownTarget, UnknownHeads, NotAtOrAbove}
    ensures r.Remove? ==> r.revisions == LineageOf(g, heads) - Ancestors(g, target)
  {
    if !g.Knows(target) {
      return Refuse(UnknownTarget);
    }
    var unknown := set h | h in heads && !g.Knows(h);
    if unknown != {} {
      var h :| h in unknown;
      return Refuse(UnknownHeads);
    }
    assert forall h :: h in heads ==> g.Knows(h) || h in unknown;
    var applied := Lineage(g, heads);
    if target !in applied {
      return Refuse(NotAtOrAbove);
    }
    return Remove(applied - Ancestors(g, target));
  }

  datatype Step = DownTo(target: Rev) | OneBelow(head: Rev) | Stuck

  /** _next_step: down to the target from a head above it, else one below the first side head. */
  function NextStep(g: Graph, heads: set<Rev>, target: Rev, removals: set<Rev>): Step
    requires g.Valid()
  {
    if exists h :: h in heads && Below(g, target, h) then
      DownTo(target)
    else if heads * removals == {} then
      Stuck
    else
      OneBelow(Least(heads * removals))
  }

  /** What a downgrade takes away: the head, or all that is above the target. */
  function Removed(g: Graph, applied: set<Rev>, step: Step): set<Rev>
    requires g.Valid()
  {
    match step
    case DownTo(target) => Above(g, applied, target)
    case OneBelow(head) => {head}
    case Stuck => {}
  }

  // ------------------------------------------------------------------ what a step keeps

  lemma HeadsSpan(g: Graph, applied: set<Rev>)
    requires g.Valid() && IsClosed(g, applied)
    ensures forall h :: h in Heads(g, applied) ==> g.Knows(h)
    ensures LineageOf(g, Heads(g, applied)) == applied
  {
    forall r | r in applied
      ensures r in LineageOf(g, Heads(g, applied))
    {
      var h := HeadAbove(g, applied, r);
    }
  }

  /** While something is left to remove there is a step to take, and it takes something away. */
  lemma NextStepExists(g: Graph, applied: set<Rev>, target: Rev)
    requires g.Valid() && IsClosed(g, applied) && target in applied
    requires applied - Ancestors(g, target) != {}
    ensures var step := NextStep(g, Heads(g, applied), target, applied - Ancestors(g, target));
      && !step.Stuck?
      && Removed(g, applied, step) * applied != {}
  {
    var removals := applied - Ancestors(g, target);
    var r :| r in removals;
    var h := HeadAbove(g, applied, r);
    if h in Ancestors(g, target) {
      AncestorsOfAncestors(g, r, h, target);
    }
    assert h in Heads(g, applied) * removals;
    if s :| s in Heads(g, applied) && Below(g, target, s) {
      assert s in Removed(g, applied, DownTo(target)) * applied;
    } else {
      var head := Least(Heads(g, applied) * removals);
      assert head in Removed(g, applied, OneBelow(head)) * applied;
    }
  }

  /** Down to the target where a head is above it, else without one of the heads that have to go. */
  ghost predicate IsOneStepDown(g: Graph, before: set<Rev>, heads: set<Rev>, target: Rev, after: set<Rev>)
    requires g.Valid() && g.Knows(target)
  {
    if exists h :: h in heads && Below(g, target, h) then
      forall r :: r in after <==> r in before && !Below(g, target, r)
    else
      exists h :: h in heads && h !in Ancestors(g, target) && after == before - {h}
  }

  lemma NextStepTakes(g: Graph, applied: set<Rev>, target: Rev)
    requires g.Valid() && IsClosed(g, applied) && target in applied
    requires applied - Ancestors(g, target) != {}
    ensures var step := NextStep(g, Heads(g, applied), target, applied - Ancestors(g, target));
      IsOneStepDown(g, applied, Heads(g, applied), target, applied - Removed(g, applied, step))
  {
    var heads, removals := Heads(g, applied), applied - Ancestors(g, target);
    var step := NextStep(g, heads, target, removals);
    NextStepExists(g, applied, target);
    if step.OneBelow? {
      assert step.head in heads * removals;
    }
  }

  /** No ancestor of the target goes, and what remains is still closed under ancestors. */
  lemma StepIsSafe(g: Graph, applied: set<Rev>, target: Rev)
    requires g.Valid() && IsClosed(g, applied) && target in applied
    ensures var step := NextStep(g, Heads(g, applied), target, applied - Ancestors(g, target));
      && Removed(g, applied, step) !! Ancestors(g, target)
      && IsClosed(g, applied - Removed(g, applied, step))
  {
    var removals := applied - Ancestors(g, target);
    var step := NextStep(g, Heads(g, applied), target, removals);
    var gone := Removed(g, applied, step);
    forall r | r in gone
      ensures r !in Ancestors(g, target)
    {
      if r in Ancestors(g, target) && step.DownTo? {
        AncestorsAreKnown(g, r, target);
        AncestorsAreKnown(g, target, r);
      }
    }
    forall r, a | r in applied && r !in gone && a in Ancestors(g, r)
      ensures a !in gone
    {
      if a in gone && step.DownTo? {
        AncestorsOfAncestors(g, target, a, r);
        AncestorsAreKnown(g, a, r);
        AncestorsAreKnown(g, target, a);
      }
    }
  }

  /** With nothing left to remove, the only head is the target. */
  lemma NothingLeft(g: Graph, applied: set<Rev>, target: Rev)
    requires g.Valid() && IsClosed(g, applied) && target in applied && applied <= Ancestors(g, target)
    ensures applied == Ancestors(g, target) && Heads(g, applied) == {target}
  {
    assert forall a :: a in Ancestors(g, target) ==> a in applied;
    forall r | r in applied
      ensures r in Heads(g, applied) <==> r == target
    {
      if r == target {
        forall s | s in applied
          ensures !Below(g, target, s)
        {
          AncestorsAreKnown(g, s, target);
          if Below(g, target, s) {
            AncestorsAreKnown(g, target, s);
          }
        }
      } else {
        assert Below(g, r, target);
      }
    }
  }

  // ------------------------------------------------------------------ the loop

  datatype Outcome = At(heads: set<Rev>) | Refused(why: Refusal)

  /** Each state follows from the one before by a step that shrinks it and keeps the target's ancestors. */
  ghost predicate IsOrderly(g: Graph, trail: seq<set<Rev>>, target: Rev)
    requires g.Valid()
  {
    && g.Knows(target)
    && trail != []
    && (forall i :: 0 <= i < |trail| ==> IsClosed(g, trail[i]) && Ancestors(g, target) <= trail[i])
    && (forall i :: 0 < i < |trail| ==> trail[i] < trail[i - 1])
  }

  /** The migrated database; `foreign` are heads in its version table that this release does not know. */
  class Database {
    const graph: Graph
    const foreign: set<Rev>
    var applied: set<Rev>

    ghost predicate Valid()
      reads this
    {
      && graph.Valid()
      && IsClosed(graph, applied)
      && forall h :: h in foreign ==> !graph.Knows(h)
    }

    constructor (graph: Graph, applied: set<Rev>, foreign: set<Rev>)
      requires graph.Valid() && IsClosed(graph, applied)
      requires forall h :: h in foreign ==> !graph.Knows(h)
      ensures Valid() && this.graph == graph && this.applied == applied && this.foreign == foreign
    {
      this.graph, this.applied, this.foreign := graph, applied, foreign;
    }

    method CurrentHeads() returns (heads: set<Rev>)
      requires Valid()
      ensures heads == Heads(graph, applied) + foreign
    {
      heads := Heads(graph, applied) + foreign;
    }

    /** The contract of the migration tool. */
    method Downgrade(step: Step)
      requires graph.Valid()
      modifies this`applied
      ensures applied == old(applied) - Removed(graph, old(applied), step)
    {
      applied := applied - Removed(graph, applied, step);
    }

    /** At or above the target, with no head that this release does not know. */
    ghost predicate IsAbove(target: Rev)
      reads this
    {
      Valid() && foreign == {} && target in applied
    }

    /** What the loop computes from the heads it reads after a downgrade. */
    method Remaining(target: Rev) returns (heads: set<Rev>, remaining: Removals)
      requires Valid()
      ensures heads == Heads(graph, applied) + foreign
      ensures remaining.Remove? <==> graph.Knows(target) && IsAbove(target)
      ensures remaining.Remove? ==> remaining.revisions == applied - Ancestors(graph, target) && heads == Heads(graph, applied)
      ensures remaining.Refuse? ==> remaining.why in {UnknownTarget, UnknownHeads, NotAtOrAbove}
    {
      heads := CurrentHeads();
      remaining := RevisionsToRemove(graph, heads, target);
      HeadsSpan(graph, applied);
      assert forall h :: h in foreign ==> h in heads;
      assert foreign == {} ==> heads == Heads(graph, applied);
    }

    /** One turn of the loop. */
    method DowngradeOnce(target: Rev, heads: set<Rev>, removals: set<Rev>) returns (stuck: bool)
      requires graph.Valid() && graph.Knows(target) && IsAbove(target)
      requires heads == Heads(graph, applied) && removals == applied - Ancestors(graph, target) && removals != {}
      modifies this`applied
      ensures !stuck && IsAbove(target) && applied < old(applied)
    {
      var step := NextStep(graph, heads, target, removals);
      NextStepExists(graph, applied, target);
      StepIsSafe(graph, applied, target);
      stuck := step.Stuck?;
      if !stuck {
        Downgrade(step);
      }
    }

    /**
     * _downgrade_until. From any database at or above a known target it ends with exactly the
     * target and its ancestors applied; it is never stuck and every downgrade makes progress.
     * Otherwise it refuses and changes nothing.
     */
    method DowngradeUntil(target: Rev) returns (outcome: Outcome, ghost trail: seq<set<Rev>>)
      requires Valid()
      modifies this`applied
      ensures Valid()
      ensures outcome.At? <==> graph.Knows(target) && foreign == {} && target in old(applied)
      ensures outcome.At? ==> applied == Ancestors(graph, target) && outcome.heads == {target}
      ensures outcome.At? ==> IsOrderly(graph, trail, target) && trail[0] == old(applied) && trail[|trail| - 1] == applied
      ensures outcome.Refused? ==> applied == old(applied)
      ensures outcome.Refused? ==> outcome.why in {UnknownTarget, UnknownHeads, NotAtOrAbove}
    {
      trail := [applied];
      var heads, plan := Remaining(target);
      if plan.Refuse? {
        return Refused(plan.why), trail;
      }
      KeepsAncestors(graph, applied, target);
      var removals := plan.revisions;
      if removals == {} {
        NothingLeft(graph, applied, target);
        Downgrade(DownTo(target));
        assert applied == old(applied);
        heads := CurrentHeads();
        return At(heads), trail;
      }
      while removals != {}
        invariant graph.Knows(target) && IsAbove(target)
        invariant heads == Heads(graph, applied)
        invariant removals == applied - Ancestors(graph, target)
        invariant IsOrderly(graph, trail, target) && trail[0] == old(applied) && trail[|trail| - 1] == applied
        decreases removals
      {
        var stuck := DowngradeOnce(target, heads, removals);
        if stuck {
          return Refused(CannotReduce), trail;
        }
        KeepsAncestors(graph, applied, target);
        trail := trail + [applied];
        var remaining;
        heads, remaining := Remaining(target);
        if remaining.Refuse? {
          return Refused(remaining.why), trail;
        }
        StillFewer(applied, trail[|trail| - 2], Ancestors(graph, target));
        if !(remaining.revisions < removals) {
          return Refused(NoProgress), trail;
        }
        removals := remaining.revisions;
      }
      NothingLeft(graph, applied, target);
      return At(heads), trail;
    }

    /** rollback: the final comparison with the target always holds. */
    method RollBack(target: Rev, dryRun: bool) returns (outcome: Outcome)
      requires Valid()
      modifies this`applied
      ensures Valid()
      ensures outcome.At? <==> graph.Knows(target) && foreign == {} && target in old(applied)
      ensures outcome.At? && dryRun ==> applied == old(applied) && outcome.heads == Heads(graph, applied)
      ensures outcome.At? && !dryRun ==> applied == Ancestors(graph, target) && outcome.heads == {target}
      ensures outcome.Refused? ==> applied == old(applied) && outcome.why in {UnknownTarget, UnknownHeads, NotAtOrAbove}
    {
      var heads, plan := Remaining(target);
      if plan.Refuse? {
        return Refused(plan.why);
      }
      if dryRun {
        return At(heads);
      }
      ghost var trail;
      outcome, trail := DowngradeUntil(target);
      if outcome.At? && outcome.heads != {target} {
        return Refused(NotExactly);
      }
    }
  }

  lemma StillFewer(now: set<Rev>, before: set<Rev>, kept: set<Rev>)
    requires kept <= now < before
    ensures now - kept < before - kept
  {
    var r :| r in before && r !in now;
    assert r in before - kept && r !in now - kept;
  }

  lemma KeepsAncestors(g: Graph, applied: set<Rev>, target: Rev)
    requires g.Valid() && IsClosed(g, applied) && target in applied
    ensures Ancestors(g, target) <= applied
  {
  }
}
