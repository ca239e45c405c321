/**
 * The publishing protocol never gets stuck: whatever the workers of HostWorkers are in the
 * middle of, the lock can be released, every operation can finish and every message be heard
 * (app/core/hosts.py).
 */
module HostProgress {
  import opened HostCache
  import opened HostWorkers
  import R = HostRuns
  import B = HostBroadcast

  // ------------------------------------------------------------------ who may go on

  /** A removal is of one host, and has its stamp only while it holds the lock. */
  ghost predicate RemovalGoesOn(w: World, i: nat)
    requires i in w.ops.ops && w.ops.ops[i].removal
  {
    && (exists h :: w.ops.ops[i].ids == {h})
    && (w.ops.ops[i].stage.Committed? || HoldsTheLock(w, i))
  }

  /** An update with its stamp waits for the lock or holds it. */
  ghost predicate UpdateGoesOn(w: World, i: nat)
    requires i in w.ops.ops && !w.ops.ops[i].removal
  {
    w.ops.ops[i].stage.Committed? || i in w.net.waiting || HoldsTheLock(w, i)
  }

  ghost predicate HoldsTheLock(w: World, i: nat) {
    w.net.lock.Publishing? && w.holder == i
  }

  ghost predicate NoneIsStuck(w: World) {
    forall i :: i in w.ops.ops ==> if w.ops.ops[i].removal then RemovalGoesOn(w, i) else UpdateGoesOn(w, i)
  }

  lemma DatabaseLeavesNoneStuck(env: Env, w: World, step: Step)
    requires NoneIsStuck(w) && Enabled(env, w, step) && step.Database?
    ensures NoneIsStuck(Apply(env, w, step))
  {
    var v, r := Apply(env, w, step), step.step;
    forall i | i in v.ops.ops
      ensures if v.ops.ops[i].removal then RemovalGoesOn(v, i) else UpdateGoesOn(v, i)
    {
      if r.CommitDeletes? && i in r.removals {
        assert v.ops.ops[i] == R.Op(true, {r.removals[i]}, R.Committed);
      } else if r.CommitRows? && i == r.i {
        assert v.ops.ops[i] == R.Op(false, r.ids, R.Committed);
      } else {
        assert i in w.ops.ops && v.ops.ops[i].ids == w.ops.ops[i].ids && v.ops.ops[i].removal == w.ops.ops[i].removal;
      }
    }
  }

  lemma OthersLeaveNoneStuck(env: Env, w: World, step: Step)
    requires NoneIsStuck(w) && LockIsHeld(w) && Enabled(env, w, step) && !step.Database?
    ensures NoneIsStuck(Apply(env, w, step))
  {
    var v := Apply(env, w, step);
    forall i | i in v.ops.ops
      ensures if v.ops.ops[i].removal then RemovalGoesOn(v, i) else UpdateGoesOn(v, i)
    {
      assert i in w.ops.ops && v.ops.ops[i].ids == w.ops.ops[i].ids && v.ops.ops[i].removal == w.ops.ops[i].removal;
    }
  }

  /** A state that a run of the workers is in. */
  ghost predicate IsGood(env: Env, start: Hosts, caches: map<B.Worker, Hosts>, w: World) {
    Inv(env, start, caches, w) && NoneIsStuck(w)
  }

  lemma StepStaysGood(env: Env, start: Hosts, caches: map<B.Worker, Hosts>, w: World, step: Step)
    requires IsGood(env, start, caches, w) && Enabled(env, w, step)
    ensures IsGood(env, start, caches, Apply(env, w, step))
  {
    StepKeeps(env, start, caches, w, step);
    if step.Database? {
      DatabaseLeavesNoneStuck(env, w, step);
    } else {
      OthersLeaveNoneStuck(env, w, step);
    }
  }

  lemma {:induction false} RunStaysGood(env: Env, start: Hosts, caches: map<B.Worker, Hosts>, w: World, steps: seq<Step>, v: World)
    requires IsGood(env, start, caches, w) && Runs(env, w, steps, v)
    ensures IsGood(env, start, caches, v)
    decreases |steps|
  {
    if steps != [] {
      StepStaysGood(env, start, caches, w, steps[0]);
      RunStaysGood(env, start, caches, Apply(env, w, steps[0]), steps[1..], v);
    }
  }

  // ------------------------------------------------------------------ going on

  ghost predicate Reaches(env: Env, w: World, v: World) {
    exists steps :: Runs(env, w, steps, v)
  }

  lemma Stays(env: Env, w: World)
    ensures Reaches(env, w, w)
  {
    assert Runs(env, w, [], w);
  }

  lemma StepThen(env: Env, w: World, step: Step, v: World)
    requires Enabled(env, w, step) && Reaches(env, Apply(env, w, step), v)
    ensures Reaches(env, w, v)
  {
    var rest :| Runs(env, Apply(env, w, step), rest, v);
    assert ([step] + rest)[1..] == rest;
    assert Runs(env, w, [step] + rest, v);
  }

  lemma {:induction false} RunsThenRuns(env: Env, w: World, first: seq<Step>, v: World, second: seq<Step>, x: World)
    requires Runs(env, w, first, v) && Runs(env, v, second, x)
    ensures Runs(env, w, first + second, x)
    decreases |first|
  {
    if first == [] {
      assert first + second == second;
    } else {
      RunsThenRuns(env, Apply(env, w, first[0]), first[1..], v, second, x);
      var all := first + second;
      assert all[0] == first[0] && all[1..] == first[1..] + second;
    }
  }

  lemma ReachesOn(env: Env, w: World, v: World, x: World)
    requires Reaches(env, w, v) && Reaches(env, v, x)
    ensures Reaches(env, w, x)
  {
    var first :| Runs(env, w, first, v);
    var second :| Runs(env, v, second, x);
    RunsThenRuns(env, w, first, v, second, x);
  }

  // ------------------------------------------------------------------ the lock is released

  /** How much the holder of the lock has yet to do. */
  ghost function LockSteps(lock: B.Lock): nat {
    match lock
    case Free => 0
    case Publishing(_, items, sent) => if sent <= |items| then 1 + |items| - sent else 0
    case Removing(_, published) => if published then 3 else 4
  }

  /** What the holder of the lock does next. */
  ghost function LockStep(lock: B.Lock): Step
    requires !lock.Free?
  {
    match lock
    case Publishing(_, items, sent) => if sent < |items| then Publish else ApplyLocally
    case Removing(_, published) => if published then StampRemoval else Publish
  }

  /** The step brings the holder nearer to its end, and touches no other operation. */
  ghost predicate IsNearer(w: World, v: World) {
    && LockSteps(v.net.lock) < LockSteps(w.net.lock)
    && v.ops.rows == w.ops.rows && v.ops.ops - {w.holder} == w.ops.ops - {w.holder}
    && (if v.net.lock.Free? then v.ops.ops == w.ops.ops - {w.holder} else v.holder == w.holder)
  }

  lemma PublishingGoesOn(env: Env, w: World)
    requires LockIsHeld(w) && w.net.lock.Publishing? && w.net.lock.sent < |w.net.lock.items|
    ensures Enabled(env, w, Publish) && IsNearer(w, Apply(env, w, Publish))
  {
  }

  lemma ApplyingGoesOn(env: Env, w: World)
    requires LockIsHeld(w) && w.net.lock.Publishing? && w.net.lock.sent == |w.net.lock.items| && w.net.publisher in w.net.caches
    ensures Enabled(env, w, ApplyLocally) && IsNearer(w, Apply(env, w, ApplyLocally))
  {
    var v := Apply(env, w, ApplyLocally);
    assert v.ops.ops == w.ops.ops - {w.holder} && v.net.lock.Free?;
  }

  lemma RemovingGoesOn(env: Env, w: World)
    requires LockIsHeld(w) && w.net.lock.Removing?
    ensures Enabled(env, w, LockStep(w.net.lock)) && IsNearer(w, Apply(env, w, LockStep(w.net.lock)))
  {
    var v := Apply(env, w, LockStep(w.net.lock));
    assert v.ops.ops - {w.holder} == w.ops.ops - {w.holder};
  }

  lemma LockGoesOn(env: Env, start: Hosts, caches: map<B.Worker, Hosts>, w: World)
    requires IsGood(env, start, caches, w) && !w.net.lock.Free?
    ensures Enabled(env, w, LockStep(w.net.lock)) && w.holder in w.ops.ops
    ensures IsNearer(w, Apply(env, w, LockStep(w.net.lock)))
  {
    if w.net.lock.Removing? {
      RemovingGoesOn(env, w);
    } else if w.net.lock.sent < |w.net.lock.items| {
      PublishingGoesOn(env, w);
    } else {
      ApplyingGoesOn(env, w);
    }
  }

  /** Whoever holds the lock finishes. */
  lemma {:induction false} LockIsReleased(env: Env, start: Hosts, caches: map<B.Worker, Hosts>, w: World) returns (v: World)
    requires IsGood(env, start, caches, w) && !w.net.lock.Free?
    ensures Reaches(env, w, v) && IsGood(env, start, caches, v) && v.net.lock.Free?
    ensures w.holder in w.ops.ops && v.ops.ops == w.ops.ops - {w.holder} && v.ops.rows == w.ops.rows
    decreases LockSteps(w.net.lock)
  {
    LockGoesOn(env, start, caches, w);
    var step := LockStep(w.net.lock);
    var next := Apply(env, w, step);
    StepStaysGood(env, start, caches, w, step);
    if next.net.lock.Free? {
      v := next;
      Stays(env, v);
    } else {
      v := LockIsReleased(env, start, caches, next);
    }
    StepThen(env, w, step, v);
  }

  // ------------------------------------------------------------------ every operation finishes

  lemma {:induction false} ItemsFor(view: View) returns (items: seq<B.Item>)
    ensures B.LastEntries(items) == view
    decreases |view|
  {
    if view == map[] {
      return [];
    }
    var h :| h in view;
    var rest := ItemsFor(view - {h});
    items := rest + [(h, view[h])];
    assert items[..|rest|] == rest;
  }

  lemma RemovalFinishes(env: Env, start: Hosts, caches: map<B.Worker, Hosts>, w: World, i: nat) returns (v: World)
    requires IsGood(env, start, caches, w) && w.net.lock.Free? && i in w.ops.ops && w.ops.ops[i].removal
    ensures Reaches(env, w, v) && IsGood(env, start, caches, v) && v.net.lock.Free?
    ensures v.ops.ops == w.ops.ops - {i} && v.ops.rows == w.ops.rows
  {
    assert RemovalGoesOn(w, i);
    var h :| w.ops.ops[i].ids == {h};
    var step := SendRemoval(i, h);
    StepStaysGood(env, start, caches, w, step);
    v := LockIsReleased(env, start, caches, Apply(env, w, step));
    StepThen(env, w, step, v);
  }

  /** An update that has its view gets the lock and sends it. */
  lemma ViewedFinishes(env: Env, start: Hosts, caches: map<B.Worker, Hosts>, w: World, i: nat) returns (v: World)
    requires IsGood(env, start, caches, w) && w.net.lock.Free? && i in w.ops.ops && !w.ops.ops[i].removal && w.ops.ops[i].stage.Viewed?
    ensures Reaches(env, w, v) && IsGood(env, start, caches, v) && v.net.lock.Free?
    ensures v.ops.ops == w.ops.ops - {i} && v.ops.rows == w.ops.rows
  {
    assert UpdateGoesOn(w, i);
    var items := ItemsFor(w.ops.ops[i].stage.view);
    var step := Send(i, items);
    StepStaysGood(env, start, caches, w, step);
    v := LockIsReleased(env, start, caches, Apply(env, w, step));
    StepThen(env, w, step, v);
  }

  lemma NumberedFinishes(env: Env, start: Hosts, caches: map<B.Worker, Hosts>, w: World, i: nat) returns (v: World)
    requires IsGood(env, start, caches, w) && w.net.lock.Free? && i in w.ops.ops && !w.ops.ops[i].removal && w.ops.ops[i].stage.Numbered?
    ensures Reaches(env, w, v) && IsGood(env, start, caches, v) && v.net.lock.Free?
    ensures v.ops.ops == w.ops.ops - {i} && v.ops.rows == w.ops.rows
  {
    var step := Database(R.ReadAgain(i));
    StepStaysGood(env, start, caches, w, step);
    var next := Apply(env, w, step);
    assert next.ops.ops - {i} == w.ops.ops - {i};
    v := ViewedFinishes(env, start, caches, next, i);
    StepThen(env, w, step, v);
  }

  lemma OperationFinishes(env: Env, start: Hosts, caches: map<B.Worker, Hosts>, w: World, i: nat) returns (v: World)
    requires IsGood(env, start, caches, w) && w.net.lock.Free? && i in w.ops.ops
    ensures Reaches(env, w, v) && IsGood(env, start, caches, v) && v.net.lock.Free?
    ensures v.ops.ops == w.ops.ops - {i} && v.ops.rows == w.ops.rows
  {
    if w.ops.ops[i].removal {
      v := RemovalFinishes(env, start, caches, w, i);
    } else if w.ops.ops[i].stage.Viewed? {
      v := ViewedFinishes(env, start, caches, w, i);
    } else if w.ops.ops[i].stage.Numbered? {
      v := NumberedFinishes(env, start, caches, w, i);
    } else {
      var step := TakeStamp(i);
      StepStaysGood(env, start, caches, w, step);
      var next := Apply(env, w, step);
      assert next.ops.ops - {i} == w.ops.ops - {i};
      v := NumberedFinishes(env, start, caches, next, i);
      StepThen(env, w, step, v);
    }
  }

  lemma {:induction false} AllFinish(env: Env, start: Hosts, caches: map<B.Worker, Hosts>, w: World) returns (v: World)
    requires IsGood(env, start, caches, w) && w.net.lock.Free?
    ensures Reaches(env, w, v) && IsGood(env, start, caches, v) && v.ops.ops == map[] && v.ops.rows == w.ops.rows
    decreases |w.ops.ops.Keys|
  {
    if w.ops.ops == map[] {
      Stays(env, w);
      return w;
    }
    var i :| i in w.ops.ops;
    var next := OperationFinishes(env, start, caches, w, i);
    assert next.ops.ops.Keys == w.ops.ops.Keys - {i};
    v := AllFinish(env, start, caches, next);
    ReachesOn(env, w, next, v);
  }

  // ------------------------------------------------------------------ everything is heard

  /** One worker hears all messages, and nothing else changes but what it holds. */
  lemma {:induction false} WorkerHears(env: Env, start: Hosts, caches: map<B.Worker, Hosts>, w: World, worker: B.Worker) returns (v: World)
    requires IsGood(env, start, caches, w) && worker in caches
    ensures Reaches(env, w, v) && IsGood(env, start, caches, v) && v.ops == w.ops && v.net.log == w.net.log
    ensures worker in w.net.heard && v.net.heard == w.net.heard[worker := |w.net.log|]
    decreases if worker in w.net.heard then |w.net.log| - w.net.heard[worker] else 0
  {
    assert worker in w.net.heard && worker in w.net.caches;
    if w.net.heard[worker] == |w.net.log| {
      Stays(env, w);
      assert w.net.heard[worker := |w.net.log|] == w.net.heard;
      return w;
    }
    var step := Hear(worker);
    StepStaysGood(env, start, caches, w, step);
    v := WorkerHears(env, start, caches, Apply(env, w, step), worker);
    StepThen(env, w, step, v);
  }

  lemma {:induction false} AllHear(env: Env, start: Hosts, caches: map<B.Worker, Hosts>, w: World, left: set<B.Worker>) returns (v: World)
    requires IsGood(env, start, caches, w) && left <= caches.Keys
    requires forall x :: x in w.net.heard && x !in left ==> w.net.heard[x] == |w.net.log|
    ensures Reaches(env, w, v) && IsGood(env, start, caches, v) && v.ops == w.ops
    ensures forall x :: x in v.net.heard ==> v.net.heard[x] == |v.net.log|
    decreases |left|
  {
    if left == {} {
      Stays(env, w);
      return w;
    }
    var worker :| worker in left;
    var next := WorkerHears(env, start, caches, w, worker);
    v := AllHear(env, start, caches, next, left - {worker});
    ReachesOn(env, w, next, v);
  }

  // ------------------------------------------------------------------ every run can settle

  /** Every operation has finished and every message was heard. */
  ghost predicate IsSettled(w: World) {
    w.ops.ops == map[] && forall x :: x in w.net.heard ==> w.net.heard[x] == |w.net.log|
  }

  lemma CanSettle(env: Env, start: Hosts, caches: map<B.Worker, Hosts>, w: World) returns (v: World)
    requires IsGood(env, start, caches, w)
    ensures Reaches(env, w, v) && IsSettled(v) && v.ops.rows == w.ops.rows
  {
    var a := w;
    Stays(env, w);
    if !w.net.lock.Free? {
      a := LockIsReleased(env, start, caches, w);
    }
    var b := AllFinish(env, start, caches, a);
    v := AllHear(env, start, caches, b, caches.Keys);
    ReachesOn(env, w, a, b);
    ReachesOn(env, w, b, v);
  }

  lemma StartIsGood(env: Env, w: World)
    requires Starts(env, w)
    ensures IsGood(env, w.ops.hosts, w.net.caches, w)
  {
    B.StartsKept(w.net);
  }

  /**
   * Whatever a run is in the middle of, it can go on, with no further change of the rows, to where
   * every operation has finished, every message was heard and every worker serves the rows.
   */
  lemma EveryRunCanSettle(env: Env, w: World, steps: seq<Step>, v: World)
    requires Starts(env, w) && Runs(env, w, steps, v)
    ensures exists x :: Reaches(env, v, x) && IsSettled(x) && x.ops.rows == v.ops.rows && AllServe(env, w, x)
  {
    StartIsGood(env, w);
    RunStaysGood(env, w.ops.hosts, w.net.caches, w, steps, v);
    var x := CanSettle(env, w.ops.hosts, w.net.caches, v);
    var more :| Runs(env, v, more, x);
    RunsThenRuns(env, w, steps, v, more, x);
    forall worker | worker in w.net.caches
      ensures worker in x.net.caches && ServesRows(env, x.ops.rows, x.net.caches[worker])
    {
      EveryWorkerHoldsWhatTheRowsPrepare(env, w, steps + more, x, worker);
    }
  }

  ghost predicate AllServe(env: Env, w: World, x: World) {
    forall worker :: worker in w.net.caches ==> worker in x.net.caches && ServesRows(env, x.ops.rows, x.net.caches[worker])
  }
}
