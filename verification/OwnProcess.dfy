/**
 * The condition under which the two-phase protocol never forgets a batch that an operator can
 * see to: each node id is pointed once, at a process that no other node id names.
 */
module OwnProcess {
  import opened StatBatches
  import opened TwoPhaseProtocol

  /** The step points no node id again, and none at a process that another id names. */
  predicate KeepsOwnProcess(s: State, step: Step) {
    step.Route? ==> step.n !in s.route && forall m :: m in s.route ==> s.route[m] != step.p
  }

  ghost predicate OwnProcessRun(s: State, steps: seq<Step>, t: State)
    decreases |steps|
  {
    if steps == [] then
      s == t
    else
      Enabled(s, steps[0]) && KeepsOwnProcess(s, steps[0]) && OwnProcessRun(Apply(s, steps[0]), steps[1..], t)
  }

  // ------------------------------------------------------------------ what such runs keep

  ghost predicate RoutesAreOwn(s: State) {
    && (forall n :: n in s.seen ==> n in s.route)
    && forall m, n :: m in s.route && n in s.route && s.route[m] == s.route[n] ==> m == n
  }

  /** The row of an epoch is of the id that names the process still using the epoch. */
  ghost predicate RowsAreOwn(s: State) {
    forall q, serial :: q in s.procs && UsesSerial(s.procs[q], serial) && Run(serial) in s.table ==>
      s.table[Run(serial)].node in s.route && s.route[s.table[Run(serial)].node] == q
  }

  ghost predicate SeenIsOwn(s: State) {
    && (forall n, q :: n in s.seen && q in s.procs && UsesSerial(s.procs[q], s.seen[n].serial) ==>
          n in s.route && s.route[n] == q)
    && (forall m, n :: m in s.seen && n in s.seen && s.seen[m].serial == s.seen[n].serial ==> m == n)
    && (forall n :: n in s.seen && Run(s.seen[n].serial) in s.table ==> s.table[Run(s.seen[n].serial)].node == n)
  }

  /** The process that the id names holds the batch. */
  ghost predicate HoldsOwn(s: State, m: NodeId, b: Batch) {
    m in s.route && s.route[m] in s.procs && s.procs[s.route[m]].hold == Holding(b)
  }

  /** What a process holds after it was billed is all that the panel can have from it. */
  ghost predicate HeldIsSeen(s: State) {
    forall m, b :: m in s.seen && HoldsOwn(s, m, b) && IsBilled(s.log, b) ==> s.seen[m] == b
  }

  ghost predicate Own(s: State) {
    RoutesAreOwn(s) && RowsAreOwn(s) && SeenIsOwn(s) && HeldIsSeen(s)
  }

  // ------------------------------------------------------------------ each step

  lemma RowsAreMade(s: State)
    requires HistoryOk(s) && RowsOk(s)
    ensures forall serial :: Run(serial) in s.table ==> serial in s.made
  {
    forall serial | Run(serial) in s.table
      ensures serial in s.made
    {
      assert IsMade(s, Batch(serial, s.table[Run(serial)].id));
    }
  }

  lemma NewProcessKeepsOwn(s: State, step: Step)
    requires Inv(s) && Own(s) && Enabled(s, step) && (step.StartProcess? || step.RestartProcess?)
    ensures Own(Apply(s, step))
  {
    var t := Apply(s, step);
    assert s.nextSerial !in s.made;
    forall q, serial | q in t.procs && UsesSerial(t.procs[q], serial)
      ensures serial == s.nextSerial || (q in s.procs && UsesSerial(s.procs[q], serial))
    {
    }
    forall n | n in s.seen
      ensures s.seen[n].serial != s.nextSerial
    {
      assert IsMade(s, s.seen[n]);
    }
    RowsAreMade(s);
    assert HeldIsSeen(t) by {
      forall m, b | m in t.seen && HoldsOwn(t, m, b) && IsBilled(t.log, b)
        ensures t.seen[m] == b
      {
        assert HoldsOwn(s, m, b);
      }
    }
  }

  /** Steps that only take things away from what the panel has seen, or point a new id. */
  lemma LessSeenKeepsOwn(s: State, t: State)
    requires Own(s) && RoutesAreOwn(t) && t.procs == s.procs && t.log == s.log
    requires forall serial :: Run(serial) in t.table <==> Run(serial) in s.table
    requires forall serial :: Run(serial) in s.table ==> t.table[Run(serial)] == s.table[Run(serial)]
    requires forall n :: n in t.seen ==> n in s.seen && t.seen[n] == s.seen[n]
    requires forall n :: n in s.route ==> n in t.route && t.route[n] == s.route[n]
    ensures Own(t)
  {
    forall m, b | m in t.seen && HoldsOwn(t, m, b) && IsBilled(t.log, b)
      ensures t.seen[m] == b
    {
      assert HoldsOwn(s, m, b);
    }
  }

  lemma PanelStepKeepsOwn(s: State, step: Step)
    requires Inv(s) && Own(s) && Enabled(s, step) && KeepsOwnProcess(s, step)
    requires step.Route? || step.PanelRestart? || step.LoadAcks? || (step.Submit? && !step.committed)
    ensures Own(Apply(s, step))
  {
    LessSeenKeepsOwn(s, Apply(s, step));
  }

  /** After a poll a process uses no serial it did not use before. */
  lemma PollUses(s: State, step: Step, q: ProcessId, serial: nat)
    requires Enabled(s, step) && step.Poll? && q in s.procs && UsesSerial(Apply(s, step).procs[q], serial)
    ensures UsesSerial(s.procs[q], serial)
  {
  }

  lemma PollKeepsSeen(s: State, step: Step)
    requires Inv(s) && Own(s) && Enabled(s, step) && step.Poll?
    ensures SeenIsOwn(Apply(s, step)) && RowsAreOwn(Apply(s, step))
  {
    var t := Apply(s, step);
    var n, p := step.n, s.route[step.n];
    forall q, serial | q in t.procs && UsesSerial(t.procs[q], serial)
      ensures q in s.procs && UsesSerial(s.procs[q], serial)
    {
      PollUses(s, step, q, serial);
    }
    forall m | m in t.seen
      ensures (m in s.seen && t.seen[m] == s.seen[m]) || (m == n && UsesSerial(s.procs[p], t.seen[m].serial))
    {
    }
  }

  lemma PollKeepsHeld(s: State, step: Step)
    requires Inv(s) && Own(s) && Enabled(s, step) && step.Poll?
    ensures HeldIsSeen(Apply(s, step))
  {
    var t := Apply(s, step);
    var p := s.route[step.n];
    assert ProcessOk(s, s.procs[p]);
    forall m, b | m in t.seen && HoldsOwn(t, m, b) && IsBilled(t.log, b)
      ensures t.seen[m] == b
    {
      assert IsMade(s, b);
      if m == step.n && step.answered {
        assert t.seen[m] == b;
      } else {
        assert HoldsOwn(s, m, b);
      }
    }
  }

  lemma SubmitKeepsRows(s: State, step: Step)
    requires Inv(s) && Own(s) && Enabled(s, step) && step.Submit? && step.committed
    ensures RowsAreOwn(Apply(s, step)) && SeenIsOwn(Apply(s, step))
  {
    var t := Apply(s, step);
    var live := Live(s, step.nodes);
    forall serial | Run(serial) in t.table
      ensures (Run(serial) in s.table && t.table[Run(serial)].node == s.table[Run(serial)].node)
           || (t.table[Run(serial)].node in step.nodes && s.seen[t.table[Run(serial)].node].serial == serial)
    {
      assert SettlesAt(s.table, live, t.table, Run(serial));
      if Written(live, Run(serial)) {
        assert Writes(live, t.table[Run(serial)].node, Run(serial));
      }
    }
  }

  /** A write that takes a batch from its process's own id takes it off what was seen. */
  lemma BilledFromOwn(s: State, step: Step, m: NodeId, b: Batch)
    requires Inv(s) && Own(s) && Enabled(s, step) && step.Submit? && step.committed
    requires HoldsOwn(s, m, b) && IsBilled(Apply(s, step).log, b)
    ensures IsBilled(s.log, b) || (m in step.nodes && s.seen[m] == b)
  {
    SubmitBilled(s, step);
    var w, n :| BilledBy(Apply(s, step).log, b, w, n);
    assert UsesSerial(s.procs[s.route[m]], b.serial);
    assert n in s.seen && s.seen[n] == b ==> n == m;
    assert BilledBy(s.log, b, w, n) ==> IsBilled(s.log, b);
  }

  lemma SubmitKeepsHeld(s: State, step: Step)
    requires Inv(s) && Own(s) && Enabled(s, step) && step.Submit? && step.committed
    ensures HeldIsSeen(Apply(s, step))
  {
    var t := Apply(s, step);
    forall m, b | m in t.seen && HoldsOwn(t, m, b) && IsBilled(t.log, b)
      ensures t.seen[m] == b
    {
      assert HoldsOwn(s, m, b);
      BilledFromOwn(s, step, m, b);
    }
  }

  lemma StepKeepsOwn(s: State, step: Step)
    requires Inv(s) && Own(s) && Enabled(s, step) && KeepsOwnProcess(s, step)
    ensures Own(Apply(s, step))
  {
    if step.StartProcess? || step.RestartProcess? {
      NewProcessKeepsOwn(s, step);
    } else if step.Poll? {
      PollKeepsSeen(s, step);
      PollKeepsHeld(s, step);
    } else if step.Submit? && step.committed {
      SubmitKeepsRows(s, step);
      SubmitKeepsHeld(s, step);
    } else {
      PanelStepKeepsOwn(s, step);
    }
  }

  // ------------------------------------------------------------------ nothing is forgotten

  /** A record can only be deleted by the id of the process, which has then seen what the process holds. */
  lemma ForgetsNothing(s: State, step: Step, b: Batch)
    requires Inv(s) && Own(s) && Enabled(s, step) && step.Submit? && step.committed
    requires Orphans(s.table, Live(s, step.nodes), Run(b.serial)) && IsBilled(Apply(s, step).log, b)
    ensures !Arrivable(Apply(s, step), b)
  {
    var t := Apply(s, step);
    var m := s.table[Run(b.serial)].node;
    assert m in step.nodes && s.seen[m].serial != b.serial;
    NotHeld(s, step, m, b);
    OwnerHolds(s, m, b);
    forall n | n in t.seen
      ensures t.seen[n] != b
    {
      assert s.seen[n].serial == b.serial ==> n == m;
    }
  }

  /** A process that holds a batch whose epoch has a row is the one that the row's id names. */
  lemma OwnerHolds(s: State, m: NodeId, b: Batch)
    requires Own(s) && Run(b.serial) in s.table && s.table[Run(b.serial)].node == m
    ensures IsHeld(s, b) ==> HoldsOwn(s, m, b)
  {
    if q :| q in s.procs && s.procs[q].hold == Holding(b) {
      assert UsesSerial(s.procs[q], b.serial);
    }
  }

  lemma NotHeld(s: State, step: Step, m: NodeId, b: Batch)
    requires Inv(s) && Own(s) && Enabled(s, step) && step.Submit? && step.committed
    requires m in step.nodes && s.seen[m] != b && IsBilled(Apply(s, step).log, b)
    ensures !HoldsOwn(s, m, b)
  {
    if HoldsOwn(s, m, b) {
      BilledFromOwn(s, step, m, b);
    }
  }

  lemma OwnIsCareful(s: State, step: Step)
    requires Inv(s) && Own(s) && Enabled(s, step)
    ensures Careful(s, step)
  {
    if step.Submit? && step.committed {
      forall b: Batch | Orphans(s.table, Live(s, step.nodes), Run(b.serial)) && IsBilled(Apply(s, step).log, b)
        ensures !Arrivable(Apply(s, step), b)
      {
        ForgetsNothing(s, step, b);
      }
    }
  }

  lemma {:induction false} RunKeepsOwn(s: State, steps: seq<Step>, t: State)
    requires Inv(s) && Own(s) && OwnProcessRun(s, steps, t)
    ensures CarefulRun(s, steps, t)
    decreases |steps|
  {
    if steps != [] {
      OwnIsCareful(s, steps[0]);
      StepKeepsInv(s, steps[0]);
      StepKeepsOwn(s, steps[0]);
      RunKeepsOwn(Apply(s, steps[0]), steps[1..], t);
    }
  }

  /**
   * While every node id is pointed once and at a process of its own: whatever is lost, retried,
   * restarted or in doubt, each batch is billed at most once, and a process drops a batch on
   * an acknowledgement only after it was billed.
   */
  lemma OwnProcessesBillOnce(steps: seq<Step>, t: State)
    requires OwnProcessRun(Initial, steps, t)
    ensures BilledOnce(t.log)
    ensures forall b :: b in t.dropped ==> IsBilled(t.log, b)
  {
    StartsSafe();
    RunKeepsOwn(Initial, steps, t);
    EveryCarefulRunBillsOnce(steps, t);
  }

  // ------------------------------------------------------------------ nothing is silently lost

  ghost predicate HasRow(table: AckTable, n: NodeId) {
    exists e :: e in table && table[e].node == n
  }

  /** The process holds no batch, or the id that names it has a row. */
  ghost predicate HolderHasRow(s: State, p: ProcessId)
    requires p in s.procs
  {
    s.procs[p].hold.Holding? ==> exists n :: n in s.route && s.route[n] == p && HasRow(s.table, n)
  }

  /** An id that asks without an acknowledgement names a process that holds nothing. */
  ghost predicate AsksInVain(s: State, n: NodeId) {
    n in s.acks && s.acks[n].NoAck? && n in s.route && s.route[n] in s.procs ==> s.procs[s.route[n]].hold.Empty?
  }

  /** An id that is known, or is about to ask, has a row, and claims are the claimant's. */
  ghost predicate RowsStay(s: State) {
    && (forall n :: n in s.known || n in s.acks ==> HasRow(s.table, n))
    && (forall n :: Claim(n) in s.table ==> s.table[Claim(n)].node == n)
  }

  /**
   * An id has a row from its first request on, so that it never asks for the first time
   * again while its process holds a batch.
   */
  ghost predicate HeldIsSafe(s: State) {
    RowsStay(s) && (forall p :: p in s.procs ==> HolderHasRow(s, p)) && forall n :: AsksInVain(s, n)
  }

  lemma LoadKeepsRow(s: State, asked: map<NodeId, Ack>, n: NodeId)
    requires RowsStay(s) && Enabled(s, LoadAcks(asked))
    ensures HasRow(s.table, n) || n in asked ==> HasRow(WithClaims(s.table, asked), n)
  {
    var after := WithClaims(s.table, asked);
    if HasRow(s.table, n) {
      var e :| e in s.table && s.table[e].node == n;
      assert e in after && after[e].node == n;
    } else if n in asked {
      assert IsAckFor(s.table, s.known, n, asked[n]);
      assert Claim(n) in after && after[Claim(n)].node == n;
    }
  }

  lemma LoadKeepsSafe(s: State, step: Step)
    requires Own(s) && HeldIsSafe(s) && Enabled(s, step) && step.LoadAcks?
    ensures HeldIsSafe(Apply(s, step))
  {
    var t := Apply(s, step);
    forall n: NodeId
      ensures HasRow(s.table, n) || n in t.acks ==> HasRow(t.table, n)
      ensures AsksInVain(t, n)
    {
      LoadKeepsRow(s, step.asked, n);
      if n in t.acks && t.acks[n].NoAck? {
        assert IsAckFor(s.table, s.known, n, t.acks[n]);
        assert !HasRow(s.table, n);
        assert n in s.route && s.route[n] in s.procs ==> HolderHasRow(s, s.route[n]);
      }
    }
    forall p | p in t.procs
      ensures HolderHasRow(t, p)
    {
      assert HolderHasRow(s, p);
    }
  }

  /** With processes of their own, ids never take a row from each other. */
  lemma SubmitKeepsRow(s: State, step: Step, n: NodeId)
    requires Own(s) && Enabled(s, step) && step.Submit? && step.committed && HasRow(s.table, n)
    ensures HasRow(step.after, n)
  {
    var live := Live(s, step.nodes);
    if n in step.nodes {
      var e := Run(s.seen[n].serial);
      assert SettlesAt(s.table, live, step.after, e);
      assert Writes(live, n, e) && forall m :: Writes(live, m, e) ==> m == n;
    } else {
      var e :| e in s.table && s.table[e].node == n;
      assert SettlesAt(s.table, live, step.after, e);
      assert forall m :: !Writes(live, m, e);
    }
  }

  lemma SubmitKeepsSafe(s: State, step: Step)
    requires Own(s) && HeldIsSafe(s) && Enabled(s, step) && step.Submit? && step.committed
    ensures HeldIsSafe(Apply(s, step))
  {
    var t := Apply(s, step);
    forall n: NodeId | HasRow(s.table, n)
      ensures HasRow(t.table, n)
    {
      SubmitKeepsRow(s, step, n);
    }
    forall n: NodeId | Claim(n) in t.table
      ensures t.table[Claim(n)].node == n
    {
      assert SettlesAt(s.table, Live(s, step.nodes), t.table, Claim(n));
    }
    forall p | p in t.procs
      ensures HolderHasRow(t, p)
    {
      assert HolderHasRow(s, p);
    }
    forall n: NodeId
      ensures AsksInVain(t, n)
    {
      assert AsksInVain(s, n);
    }
  }

  lemma PollKeepsSafe(s: State, step: Step)
    requires Own(s) && HeldIsSafe(s) && Enabled(s, step) && step.Poll?
    ensures HeldIsSafe(Apply(s, step))
  {
    var t := Apply(s, step);
    assert HasRow(t.table, step.n) && t.route[step.n] == s.route[step.n];
    forall p | p in t.procs
      ensures HolderHasRow(t, p)
    {
      assert p != s.route[step.n] ==> HolderHasRow(s, p);
    }
    forall n: NodeId
      ensures AsksInVain(t, n)
    {
      assert AsksInVain(s, n);
    }
  }

  lemma OtherStepsKeepSafe(s: State, step: Step)
    requires Own(s) && HeldIsSafe(s) && Enabled(s, step) && KeepsOwnProcess(s, step)
    requires !step.LoadAcks? && !step.Poll? && !(step.Submit? && step.committed)
    ensures HeldIsSafe(Apply(s, step))
  {
    var t := Apply(s, step);
    forall p | p in t.procs
      ensures HolderHasRow(t, p)
    {
      assert p in s.procs ==> HolderHasRow(s, p);
    }
    forall n: NodeId
      ensures AsksInVain(t, n)
    {
      assert AsksInVain(s, n);
      assert step.Route? && n == step.n ==> HolderHasRow(s, step.p);
    }
  }

  lemma StepKeepsSafe(s: State, step: Step)
    requires Own(s) && HeldIsSafe(s) && Enabled(s, step) && KeepsOwnProcess(s, step)
    ensures HeldIsSafe(Apply(s, step))
  {
    if step.LoadAcks? {
      LoadKeepsSafe(s, step);
    } else if step.Poll? {
      PollKeepsSafe(s, step);
    } else if step.Submit? && step.committed {
      SubmitKeepsSafe(s, step);
    } else {
      OtherStepsKeepSafe(s, step);
    }
  }

  /** The batch that a process loses by a restart that does not keep it. */
  ghost function GoneIn(s: State, step: Step): set<Batch>
    requires Enabled(s, step)
  {
    if step.RestartProcess? && !step.keepHeld && s.procs[step.p].hold.Holding? then {s.procs[step.p].hold.batch} else {}
  }

  ghost function GoneWithRestarts(s: State, steps: seq<Step>, t: State): set<Batch>
    requires OwnProcessRun(s, steps, t)
    decreases |steps|
  {
    if steps == [] then {} else GoneIn(s, steps[0]) + GoneWithRestarts(Apply(s, steps[0]), steps[1..], t)
  }

  /** Every batch made was billed, is held, or is gone. */
  ghost predicate IsAccounted(s: State, gone: set<Batch>) {
    forall b :: IsMade(s, b) ==> IsBilled(s.log, b) || IsHeld(s, b) || b in gone
  }

  /** A poll drops a batch only on an acknowledgement, which names a billed one. */
  lemma PollAccounts(s: State, step: Step, gone: set<Batch>)
    requires Inv(s) && HeldIsSafe(s) && Enabled(s, step) && step.Poll? && IsAccounted(s, gone)
    ensures IsAccounted(Apply(s, step), gone)
  {
    var t, p := Apply(s, step), s.route[step.n];
    PollDropsBilled(s, step);
    assert ProcessOk(s, s.procs[p]) && AsksInVain(s, step.n);
    forall b | IsMade(t, b)
      ensures IsBilled(t.log, b) || IsHeld(t, b) || b in gone
    {
      if !IsMade(s, b) {
        assert t.procs[p].hold == Holding(b);
      } else if IsHeld(s, b) {
        var q :| q in s.procs && s.procs[q].hold == Holding(b);
        assert q != p ==> t.procs[q].hold == Holding(b);
        assert q == p && t.procs[p].hold != Holding(b) ==> b in t.dropped;
      }
    }
  }

  lemma StepAccounts(s: State, step: Step, gone: set<Batch>)
    requires Inv(s) && HeldIsSafe(s) && Enabled(s, step) && IsAccounted(s, gone)
    ensures IsAccounted(Apply(s, step), gone + GoneIn(s, step))
  {
    var t := Apply(s, step);
    if step.Poll? {
      PollAccounts(s, step, gone);
    } else {
      if step.Submit? && step.committed {
        SubmitBilled(s, step);
      }
      forall b | IsMade(t, b)
        ensures IsBilled(t.log, b) || IsHeld(t, b) || b in gone + GoneIn(s, step)
      {
        assert IsMade(s, b);
        if q :| q in s.procs && s.procs[q].hold == Holding(b) {
          assert !(b in GoneIn(s, step)) ==> t.procs[q].hold == Holding(b);
        }
      }
    }
  }

  lemma {:induction false} RunAccounts(s: State, steps: seq<Step>, t: State, gone: set<Batch>)
    requires Inv(s) && Own(s) && HeldIsSafe(s) && OwnProcessRun(s, steps, t) && IsAccounted(s, gone)
    ensures IsAccounted(t, gone + GoneWithRestarts(s, steps, t))
    decreases |steps|
  {
    if steps == [] {
      assert gone + {} == gone;
    } else {
      OwnIsCareful(s, steps[0]);
      StepKeepsInv(s, steps[0]);
      StepKeepsOwn(s, steps[0]);
      StepKeepsSafe(s, steps[0]);
      StepAccounts(s, steps[0], gone);
      RunAccounts(Apply(s, steps[0]), steps[1..], t, gone + GoneIn(s, steps[0]));
    }
  }

  /**
   * While every node id is pointed once and at a process of its own, nothing is silently lost:
   * each batch a process ever made was billed, is still held, or went with a restart that did
   * not keep it.
   */
  lemma OwnProcessesLoseNothing(steps: seq<Step>, t: State, b: Batch)
    requires OwnProcessRun(Initial, steps, t) && IsMade(t, b)
    ensures IsBilled(t.log, b) || IsHeld(t, b) || b in GoneWithRestarts(Initial, steps, t)
  {
    StartsSafe();
    RunAccounts(Initial, steps, t, {});
  }

  lemma StartsSafe()
    ensures Inv(Initial) && Own(Initial) && HeldIsSafe(Initial) && IsAccounted(Initial, {})
  {
  }
}
