/**
 * Updates and removals of one publishing worker, run over the messages to all workers: the
 * interleavings of HostRuns with each install replaced by sending under the publish lock and
 * applying locally, as HostBroadcast has it (app/core/hosts.py).
 */
module HostWorkers {
  import opened HostCache
  import R = HostRuns
  import B = HostBroadcast

  /**
   * The operations with the entries they have installed under a stamp, the messages with the
   * caches of all workers, and the operation that holds the publish lock.
   */
  datatype World = World(ops: R.State, net: B.State, holder: nat)

  datatype Step =
    | Database(step: R.Step)
    | TakeStamp(i: nat)
    | Send(i: nat, items: seq<B.Item>)
    | SendRemoval(i: nat, h: HostId)
    | Publish
    | StampRemoval
    | ApplyLocally
    | Hear(w: B.Worker)

  ghost predicate Enabled(env: Env, w: World, step: Step) {
    match step
    case Database(r) =>
      (r.CommitRows? || r.CommitDeletes? || r.ReadAgain?) && R.Enabled(w.ops, r) && R.Careful(env, w.ops, r)
    case TakeStamp(i) =>
      R.Enabled(w.ops, R.TakeStamp(i)) && !w.ops.ops[i].removal && B.Enabled(w.net, B.TakeStamp(i))
    case Send(i, items) =>
      && i in w.ops.ops && !w.ops.ops[i].removal && w.ops.ops[i].stage.Viewed?
      && B.LastEntries(items) == w.ops.ops[i].stage.view && B.Enabled(w.net, B.Acquire(i, items))
    case SendRemoval(i, h) =>
      i in w.ops.ops && w.ops.ops[i] == R.Op(true, {h}, R.Committed) && B.Enabled(w.net, B.AcquireRemoval(h))
    case Publish => B.Enabled(w.net, B.Publish)
    case StampRemoval => B.Enabled(w.net, B.StampRemoval) && R.Enabled(w.ops, R.TakeStamp(w.holder))
    case ApplyLocally => B.Enabled(w.net, B.ApplyLocally) && R.Enabled(w.ops, R.Install(w.holder))
    case Hear(v) => B.Enabled(w.net, B.Hear(v))
  }

  ghost function Apply(env: Env, w: World, step: Step): World
    requires Enabled(env, w, step)
  {
    match step
    case Database(r) => w.(ops := R.Apply(env, w.ops, r))
    case TakeStamp(i) => World(R.Apply(env, w.ops, R.TakeStamp(i)), B.Apply(w.net, B.TakeStamp(i)), w.holder)
    case Send(i, items) => World(w.ops, B.Apply(w.net, B.Acquire(i, items)), i)
    case SendRemoval(i, h) => World(w.ops, B.Apply(w.net, B.AcquireRemoval(h)), i)
    case Publish => w.(net := B.Apply(w.net, B.Publish))
    case StampRemoval => World(R.Apply(env, w.ops, R.TakeStamp(w.holder)), B.Apply(w.net, B.StampRemoval), w.holder)
    case ApplyLocally => World(R.Apply(env, w.ops, R.Install(w.holder)), B.Apply(w.net, B.ApplyLocally), w.holder)
    case Hear(v) => w.(net := B.Apply(w.net, B.Hear(v)))
  }

  ghost predicate Runs(env: Env, w: World, steps: seq<Step>, v: World)
    decreases |steps|
  {
    if steps == [] then w == v else Enabled(env, w, steps[0]) && Runs(env, Apply(env, w, steps[0]), steps[1..], v)
  }

  // ------------------------------------------------------------------ how the two halves hang together

  ghost predicate SameStamps(r: R.State, b: B.State) {
    r.stamp == b.stamp && forall h :: StampOf(r.stamps, h) == StampOf(b.stamps, h)
  }

  /** A waiting operation has the stamp that the publisher noted for it. */
  ghost predicate WaitingIsStamped(r: R.State, b: B.State) {
    forall i :: i in b.waiting ==>
      i in r.ops && !r.ops[i].removal && !r.ops[i].stage.Committed? && r.ops[i].stage.stamp == b.waiting[i]
  }

  /** What is being sent is what the holder of the lock will install. */
  ghost predicate SendsItsView(r: R.State, items: seq<B.Item>, stage: R.Stage)
    requires stage.Viewed?
  {
    var sent := B.LastEntries(items);
    && (forall h :: h in sent <==> h in stage.view && stage.stamp >= StampOf(r.stamps, h))
    && (forall h :: h in sent ==> sent[h] == stage.view[h])
  }

  ghost predicate LockIsHeld(w: World) {
    var r := w.ops;
    match w.net.lock
    case Free => true
    case Publishing(stamp, items, _) =>
      && w.holder in r.ops && w.holder !in w.net.waiting && r.ops[w.holder].stage.Viewed?
      && r.ops[w.holder].stage.stamp == stamp && SendsItsView(r, items, r.ops[w.holder].stage)
    case Removing(h, _) =>
      w.holder in r.ops && w.holder !in w.net.waiting && r.ops[w.holder] == R.Op(true, {h}, R.Committed)
  }

  /** What was installed under a stamp is what the operations made of the hosts they started from. */
  ghost predicate SameInstalled(start: Hosts, r: R.State, b: B.State) {
    forall h :: Lookup(r.hosts, h) == if h in b.claimed then b.claimed[h] else Lookup(start, h)
  }

  ghost predicate Linked(start: Hosts, w: World) {
    && SameStamps(w.ops, w.net) && WaitingIsStamped(w.ops, w.net) && LockIsHeld(w) && SameInstalled(start, w.ops, w.net)
    && !w.ops.settingUp && w.ops.reloads == map[]
  }

  ghost predicate Inv(env: Env, start: Hosts, caches: map<B.Worker, Hosts>, w: World) {
    R.Inv(env, w.ops) && B.Inv(caches, w.net) && Linked(start, w)
  }

  // ------------------------------------------------------------------ each step

  lemma DatabaseKeepsLink(env: Env, start: Hosts, w: World, step: Step)
    requires Linked(start, w) && Enabled(env, w, step) && step.Database?
    ensures Linked(start, Apply(env, w, step))
  {
    var v := Apply(env, w, step);
    assert forall i :: i in w.ops.ops && !(step.step.ReadAgain? && i == step.step.i) ==> i in v.ops.ops && v.ops.ops[i] == w.ops.ops[i];
    assert forall h :: StampOf(v.ops.stamps, h) == StampOf(w.ops.stamps, h);
    assert forall h :: Lookup(v.ops.hosts, h) == Lookup(w.ops.hosts, h);
  }

  lemma TakeStampKeepsLink(env: Env, start: Hosts, w: World, step: Step)
    requires Linked(start, w) && Enabled(env, w, step) && step.TakeStamp?
    ensures Linked(start, Apply(env, w, step))
  {
    var v := Apply(env, w, step);
    assert forall i :: i in w.ops.ops && i != step.i ==> v.ops.ops[i] == w.ops.ops[i];
    assert forall h :: StampOf(v.ops.stamps, h) == StampOf(w.ops.stamps, h);
  }

  lemma SendKeepsLink(env: Env, start: Hosts, w: World, step: Step)
    requires Linked(start, w) && Enabled(env, w, step) && step.Send?
    ensures Linked(start, Apply(env, w, step))
  {
    var v, stamp := Apply(env, w, step), w.net.waiting[step.i];
    forall h: HostId
      ensures var sent, view := B.LastEntries(v.net.lock.items), w.ops.ops[step.i].stage.view;
        && (h in sent <==> h in view && stamp >= StampOf(w.ops.stamps, h))
        && (h in sent ==> sent[h] == view[h])
    {
      B.CurrentEntries(w.net.stamps, stamp, step.items, h);
    }
  }

  lemma StampRemovalKeepsLink(env: Env, start: Hosts, w: World, step: Step)
    requires R.Inv(env, w.ops) && Linked(start, w) && Enabled(env, w, step) && step.StampRemoval?
    ensures Linked(start, Apply(env, w, step))
  {
    var v, h := Apply(env, w, step), w.net.lock.h;
    var items: seq<B.Item> := [(h, Absent)];
    assert items[..0] == [] && B.LastEntries(items) == map[h := Absent];
    var stage := v.ops.ops[w.holder].stage;
    assert stage == R.Viewed(w.ops.stamp + 1, R.AllAbsent({h}));
    assert forall k :: StampOf(w.ops.stamps, k) <= w.ops.stamp;
    assert SendsItsView(v.ops, items, stage);
    assert forall i :: i in w.ops.ops && i != w.holder ==> v.ops.ops[i] == w.ops.ops[i];
  }

  lemma ApplyKeepsLink(env: Env, start: Hosts, w: World, step: Step)
    requires Linked(start, w) && Enabled(env, w, step) && step.ApplyLocally?
    ensures Linked(start, Apply(env, w, step))
  {
    var v, stage := Apply(env, w, step), w.ops.ops[w.holder].stage;
    var sent := B.LastEntries(w.net.lock.items);
    forall h: HostId
      ensures StampOf(v.ops.stamps, h) == StampOf(v.net.stamps, h)
      ensures Lookup(v.ops.hosts, h) == if h in v.net.claimed then v.net.claimed[h] else Lookup(start, h)
    {
      assert h in sent <==> h in stage.view && stage.stamp >= StampOf(w.ops.stamps, h);
      assert Lookup(v.ops.hosts, h) == EntryAfter(w.ops.hosts, w.ops.stamps, Stamped(stage.stamp), stage.view, h);
      assert StampOf(w.ops.stamps, h) == StampOf(w.net.stamps, h);
    }
  }

  /** Sending and hearing change neither stamps, nor what is installed, nor what is being sent. */
  lemma MessageKeepsLink(env: Env, start: Hosts, w: World, step: Step)
    requires Linked(start, w) && Enabled(env, w, step) && (step.Publish? || step.Hear?)
    ensures Linked(start, Apply(env, w, step))
  {
    var v := Apply(env, w, step);
    assert SameStamps(v.ops, v.net) && WaitingIsStamped(v.ops, v.net) && SameInstalled(start, v.ops, v.net);
    if w.net.lock.Publishing? {
      assert v.net.lock.items == w.net.lock.items && v.net.lock.stamp == w.net.lock.stamp;
    }
  }

  lemma SendRemovalKeepsLink(env: Env, start: Hosts, w: World, step: Step)
    requires Linked(start, w) && Enabled(env, w, step) && step.SendRemoval?
    ensures Linked(start, Apply(env, w, step))
  {
  }

  /** Both halves take a step of their own that keeps their own invariant. */
  lemma HalvesKeep(env: Env, start: Hosts, caches: map<B.Worker, Hosts>, w: World, step: Step)
    requires Inv(env, start, caches, w) && Enabled(env, w, step)
    ensures R.Inv(env, Apply(env, w, step).ops) && B.Inv(caches, Apply(env, w, step).net)
  {
    match step
    case Database(r) => R.StepKeeps(env, w.ops, r);
    case TakeStamp(i) =>
      R.StepKeeps(env, w.ops, R.TakeStamp(i));
      B.StepKeeps(caches, w.net, B.TakeStamp(i));
    case Send(i, items) => B.StepKeeps(caches, w.net, B.Acquire(i, items));
    case SendRemoval(_, h) => B.StepKeeps(caches, w.net, B.AcquireRemoval(h));
    case Publish => B.StepKeeps(caches, w.net, B.Publish);
    case StampRemoval =>
      R.StepKeeps(env, w.ops, R.TakeStamp(w.holder));
      B.StepKeeps(caches, w.net, B.StampRemoval);
    case ApplyLocally =>
      R.StepKeeps(env, w.ops, R.Install(w.holder));
      B.StepKeeps(caches, w.net, B.ApplyLocally);
    case Hear(v) => B.StepKeeps(caches, w.net, B.Hear(v));
  }

  lemma StepKeeps(env: Env, start: Hosts, caches: map<B.Worker, Hosts>, w: World, step: Step)
    requires Inv(env, start, caches, w) && Enabled(env, w, step)
    ensures Inv(env, start, caches, Apply(env, w, step))
  {
    HalvesKeep(env, start, caches, w, step);
    match step
    case Database(_) => DatabaseKeepsLink(env, start, w, step);
    case TakeStamp(_) => TakeStampKeepsLink(env, start, w, step);
    case Send(_, _) => SendKeepsLink(env, start, w, step);
    case StampRemoval => StampRemovalKeepsLink(env, start, w, step);
    case ApplyLocally => ApplyKeepsLink(env, start, w, step);
    case Publish => MessageKeepsLink(env, start, w, step);
    case SendRemoval(_, _) => SendRemovalKeepsLink(env, start, w, step);
    case Hear(_) => MessageKeepsLink(env, start, w, step);
  }

  lemma {:induction false} RunKeeps(env: Env, start: Hosts, caches: map<B.Worker, Hosts>, w: World, steps: seq<Step>, v: World)
    requires Inv(env, start, caches, w) && Runs(env, w, steps, v)
    ensures Inv(env, start, caches, v)
    decreases |steps|
  {
    if steps != [] {
      StepKeeps(env, start, caches, w, steps[0]);
      RunKeeps(env, start, caches, Apply(env, w, steps[0]), steps[1..], v);
    }
  }

  // ------------------------------------------------------------------ every run

  /** All workers are set up and hold what the rows prepare to; nothing is under way. */
  ghost predicate Starts(env: Env, w: World) {
    && R.Inv(env, w.ops) && w.ops.ops == map[] && w.ops.reloads == map[] && !w.ops.settingUp
    && B.Starts(w.net) && SameStamps(w.ops, w.net)
    && forall v :: v in w.net.caches ==> w.net.caches[v] == w.ops.hosts
  }

  /**
   * Once the publisher's operations have finished and every message was heard, every worker
   * holds exactly what the rows prepare to.
   */
  lemma EveryWorkerHoldsWhatTheRowsPrepare(env: Env, w: World, steps: seq<Step>, v: World, worker: B.Worker)
    requires Starts(env, w) && Runs(env, w, steps, v) && worker in w.net.caches
    requires v.ops.ops == map[] && forall x :: x in v.net.heard ==> v.net.heard[x] == |v.net.log|
    ensures worker in v.net.caches && v.net.caches[worker] == AllPrepared(env, v.ops.rows)
    ensures ServesRows(env, v.ops.rows, v.net.caches[worker])
  {
    var start, caches := w.ops.hosts, w.net.caches;
    B.StartsKept(w.net);
    RunKeeps(env, start, caches, w, steps, v);
    assert v.net.lock.Free?;
    forall h: HostId
      ensures worker in v.net.caches && Lookup(v.net.caches[worker], h) == Lookup(AllPrepared(env, v.ops.rows), h)
    {
      B.AtRestWorkersAgree(caches, v.net, worker, h);
      assert R.InvAt(env, v.ops, h);
      R.AllPreparedAt(env, v.ops.rows, h);
    }
    SameLookups(v.net.caches[worker], AllPrepared(env, v.ops.rows));
    AllPreparedServes(env, v.ops.rows);
  }
}
