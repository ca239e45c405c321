/**
 * The two-phase stats protocol between the panel and its nodes: a node process keeps
 * a batch and sends it again until the panel acknowledges it; the panel settles a
 * batch inside the transaction that bills it (app/jobs/record_usages.py,
 * app/fork/jobs/stat_batches.py).
 */
module TwoPhaseProtocol {
  import opened StatBatches

  type ProcessId = nat

  datatype Batch = Batch(serial: nat, id: nat)

  datatype Hold = Empty | Holding(batch: Batch)

  /** A running node process: the serial of its epoch, how many batches it made, the batch it keeps. */
  datatype Process = Process(serial: nat, made: nat, hold: Hold)

  /** The log holds, for each committed write, the batches it billed by the node that sent them. */
  datatype State = State(
    table: AckTable,
    known: map<NodeId, Epoch>,
    route: map<NodeId, ProcessId>,
    procs: map<ProcessId, Process>,
    nextSerial: nat,
    made: map<nat, nat>,
    acks: map<NodeId, Ack>,
    seen: map<NodeId, Batch>,
    log: BillLog,
    dropped: set<Batch>)

  datatype Step =
    | StartProcess(p: ProcessId)
    | RestartProcess(p: ProcessId, keepHeld: bool)
    | Route(n: NodeId, p: ProcessId)
    | PanelRestart
    | LoadAcks(asked: map<NodeId, Ack>)
    | Poll(n: NodeId, traffic: bool, answered: bool)
    | Submit(nodes: set<NodeId>, committed: bool, after: AckTable)

  const Initial := State(map[], map[], map[], map[], 0, map[], map[], map[], [], {})

  // ------------------------------------------------------------------ the node

  /** What the process still keeps once it has read the acknowledgement of a request. */
  function KeptAfter(hold: Hold, ack: Ack): Hold {
    match hold
    case Empty => Empty
    case Holding(b) =>
      if ack.NoAck? || (ack.epoch == Run(b.serial) && ack.id >= b.id) then Empty else hold
  }

  function Answer(p: Process, ack: Ack, traffic: bool): Process {
    var kept := KeptAfter(p.hold, ack);
    if kept.Empty? && traffic then
      Process(p.serial, p.made + 1, Holding(Batch(p.serial, p.made + 1)))
    else
      p.(hold := kept)
  }

  function AnsweredEpoch(p: Process): Epoch {
    match p.hold
    case Empty => Run(p.serial)
    case Holding(b) => Run(b.serial)
  }

  // ----------------------------------------------------------------- the panel

  function Sent(s: State, nodes: set<NodeId>): Batches
    requires nodes <= s.seen.Keys
  {
    map n | n in nodes :: StatBatch(Run(s.seen[n].serial), s.seen[n].id, true)
  }

  ghost function StaleNodes(s: State, nodes: set<NodeId>): set<NodeId>
    requires nodes <= s.seen.Keys
  {
    set n | n in nodes && IsStale(s.table, Sent(s, nodes), n)
  }

  ghost function NewBills(s: State, nodes: set<NodeId>): map<NodeId, Batch>
    requires nodes <= s.seen.Keys
  {
    map n | n in nodes && n !in StaleNodes(s, nodes) :: s.seen[n]
  }

  /** The batches of the round of the retry loop that commits. */
  ghost function Live(s: State, nodes: set<NodeId>): Batches
    requires nodes <= s.seen.Keys
  {
    AsAckOnly(Sent(s, nodes), StaleNodes(s, nodes))
  }

  function WithClaims(table: AckTable, asked: map<NodeId, Ack>): AckTable {
    table + map n | n in asked && asked[n].NoAck? :: Claim(n) := AckRow(n, 0)
  }

  ghost predicate Enabled(s: State, step: Step) {
    match step
    case StartProcess(p) => p !in s.procs
    case RestartProcess(p, _) => p in s.procs
    case Route(_, p) => p in s.procs
    case PanelRestart => true
    case LoadAcks(asked) => forall n :: n in asked ==> IsAckFor(s.table, s.known, n, asked[n])
    case Poll(n, _, _) => n in s.acks && n in s.route && s.route[n] in s.procs
    case Submit(nodes, committed, after) =>
      nodes <= s.seen.Keys && (committed ==> Settles(s.table, Live(s, nodes), after))
  }

  ghost function Apply(s: State, step: Step): State
    requires Enabled(s, step)
  {
    match step
    case StartProcess(p) =>
      s.(procs := s.procs[p := Process(s.nextSerial, 0, Empty)],
         made := s.made[s.nextSerial := 0], nextSerial := s.nextSerial + 1)
    case RestartProcess(p, keepHeld) =>
      s.(procs := s.procs[p := Process(s.nextSerial, 0, if keepHeld then s.procs[p].hold else Empty)],
         made := s.made[s.nextSerial := 0], nextSerial := s.nextSerial + 1)
    case Route(n, p) =>
      s.(route := s.route[n := p])
    case PanelRestart =>
      s.(known := map[], acks := map[], seen := map[])
    case LoadAcks(asked) =>
      s.(acks := asked, seen := map[], table := WithClaims(s.table, asked))
    case Poll(n, traffic, answered) =>
      var p, ack := s.route[n], s.acks[n];
      var was := s.procs[p];
      var now := Answer(was, ack, traffic);
      s.(procs := s.procs[p := now],
         made := s.made[now.serial := now.made],
         acks := s.acks - {n},
         known := if answered then s.known[n := AnsweredEpoch(now)] else s.known,
         seen := if answered && now.hold.Holding? then s.seen[n := now.hold.batch] else s.seen,
         dropped := if was.hold.Holding? && ack.Ack? && KeptAfter(was.hold, ack).Empty?
                    then s.dropped + {was.hold.batch} else s.dropped)
    case Submit(nodes, committed, after) =>
      if committed then
        s.(table := after, seen := s.seen - nodes, log := s.log + [NewBills(s, nodes)])
      else
        s.(seen := s.seen - nodes)
  }

  // -------------------------------------------------------------- the properties

  type BillLog = seq<map<NodeId, Batch>>

  ghost predicate BilledBy(log: BillLog, b: Batch, write: nat, n: NodeId) {
    write < |log| && n in log[write] && log[write][n] == b
  }

  ghost predicate IsBilled(log: BillLog, b: Batch) {
    exists write, n :: BilledBy(log, b, write, n)
  }

  /** Every batch is billed at most once. */
  ghost predicate BilledOnce(log: BillLog) {
    forall b, v, w, m, n :: BilledBy(log, b, v, m) && BilledBy(log, b, w, n) ==> v == w && m == n
  }

  ghost predicate IsHeld(s: State, b: Batch) {
    exists p :: p in s.procs && s.procs[p].hold == Holding(b)
  }

  /** The panel can still be handed the batch. */
  ghost predicate Arrivable(s: State, b: Batch) {
    IsHeld(s, b) || exists n :: n in s.seen && s.seen[n] == b
  }

  ghost predicate IsRecorded(s: State, b: Batch) {
    Recorded(s.table, Run(b.serial), b.id)
  }

  /** A committed write loses the record of a billed batch the panel can still be handed. */
  ghost predicate Forgets(s: State, step: Step, b: Batch)
    requires Enabled(s, step)
  {
    && step.Submit? && step.committed
    && Orphans(s.table, Live(s, step.nodes), Run(b.serial))
    && IsBilled(Apply(s, step).log, b)
    && Arrivable(Apply(s, step), b)
  }

  ghost predicate Careful(s: State, step: Step)
    requires Enabled(s, step)
  {
    forall b :: !Forgets(s, step, b)
  }

  ghost predicate Runs(s: State, steps: seq<Step>, t: State)
    decreases |steps|
  {
    if steps == [] then s == t else Enabled(s, steps[0]) && Runs(Apply(s, steps[0]), steps[1..], t)
  }

  ghost predicate Reachable(s: State) {
    exists steps :: Runs(Initial, steps, s)
  }

  ghost predicate CarefulRun(s: State, steps: seq<Step>, t: State)
    decreases |steps|
  {
    if steps == [] then
      s == t
    else
      Enabled(s, steps[0]) && Careful(s, steps[0]) && CarefulRun(Apply(s, steps[0]), steps[1..], t)
  }

  // --------------------------------------------------------------- the invariant

  ghost predicate IsMade(s: State, b: Batch) {
    b.serial in s.made && 0 < b.id <= s.made[b.serial]
  }

  ghost predicate UsesSerial(p: Process, serial: nat) {
    p.serial == serial || (p.hold.Holding? && p.hold.batch.serial == serial)
  }

  ghost predicate ProcessesOk(s: State) {
    && (forall serial :: serial in s.made ==> serial < s.nextSerial)
    && (forall p :: p in s.procs ==> ProcessOk(s, s.procs[p]))
    && (forall p, q, serial ::
          p in s.procs && q in s.procs && UsesSerial(s.procs[p], serial) && UsesSerial(s.procs[q], serial) ==> p == q)
  }

  ghost predicate ProcessOk(s: State, p: Process) {
    && p.serial in s.made && s.made[p.serial] == p.made
    && (p.hold.Holding? ==>
          var b := p.hold.batch;
          b.serial in s.made && s.made[b.serial] == b.id > 0)
  }

  ghost predicate HistoryOk(s: State) {
    && (forall b :: IsBilled(s.log, b) ==> IsMade(s, b))
    && (forall n :: n in s.seen ==> IsMade(s, s.seen[n]) && n in s.known)
    && (forall b :: b in s.dropped ==> IsBilled(s.log, b))
  }

  ghost predicate RowsOk(s: State) {
    && (forall e :: e in s.table && e.Claim? ==> s.table[e].id == 0)
    && (forall e :: e in s.table && e.Run? ==> IsBilled(s.log, Batch(e.serial, s.table[e].id)))
    && (forall n :: n in s.acks && s.acks[n].Ack? && s.acks[n].epoch.Run? && s.acks[n].id > 0 ==>
          IsBilled(s.log, Batch(s.acks[n].epoch.serial, s.acks[n].id)))
  }

  ghost predicate RecordsOk(s: State) {
    forall b :: IsBilled(s.log, b) && Arrivable(s, b) ==> IsRecorded(s, b)
  }

  ghost predicate Inv(s: State) {
    ProcessesOk(s) && HistoryOk(s) && RowsOk(s) && RecordsOk(s) && BilledOnce(s.log)
  }

  lemma NewProcessKeepsInv(s: State, step: Step)
    requires Inv(s) && Enabled(s, step) && (step.StartProcess? || step.RestartProcess?)
    ensures Inv(Apply(s, step))
  {
    var t := Apply(s, step);
    assert s.nextSerial !in s.made;
    forall b
      ensures Arrivable(t, b) ==> Arrivable(s, b)
    {
      if p :| p in t.procs && t.procs[p].hold == Holding(b) {
        assert p in s.procs && s.procs[p].hold == Holding(b);
      }
    }
    NewProcessOk(s, step);
  }

  lemma NewProcessOk(s: State, step: Step)
    requires ProcessesOk(s) && Enabled(s, step) && (step.StartProcess? || step.RestartProcess?)
    ensures ProcessesOk(Apply(s, step))
  {
    var t := Apply(s, step);
    assert s.nextSerial !in s.made;
    forall p | p in t.procs
      ensures ProcessOk(t, t.procs[p])
    {
      assert p in s.procs ==> ProcessOk(s, s.procs[p]);
    }
    forall p, serial | p in t.procs && UsesSerial(t.procs[p], serial)
      ensures serial == s.nextSerial ==> p == step.p
      ensures serial != s.nextSerial ==> p in s.procs && UsesSerial(s.procs[p], serial)
    {
      assert p in s.procs ==> ProcessOk(s, s.procs[p]);
    }
  }

  /** Loading acknowledgements reads ids of billed batches only, and adds only claims. */
  lemma LoadRowsOk(s: State, step: Step)
    requires RowsOk(s) && Enabled(s, step) && step.LoadAcks?
    ensures RowsOk(Apply(s, step))
  {
    var t := Apply(s, step);
    forall n | n in t.acks && t.acks[n].Ack? && t.acks[n].epoch.Run? && t.acks[n].id > 0
      ensures IsBilled(t.log, Batch(t.acks[n].epoch.serial, t.acks[n].id))
    {
      assert IsAckFor(s.table, s.known, n, t.acks[n]);
      assert t.acks[n].epoch in s.table && s.table[t.acks[n].epoch].id == t.acks[n].id;
    }
  }

  lemma LoadRecordsOk(s: State, step: Step)
    requires RecordsOk(s) && Enabled(s, step) && step.LoadAcks?
    ensures RecordsOk(Apply(s, step))
  {
    var t := Apply(s, step);
    forall b
      ensures Arrivable(t, b) ==> Arrivable(s, b)
      ensures IsRecorded(t, b) <==> IsRecorded(s, b)
    {
    }
  }

  lemma LoadKeepsInv(s: State, step: Step)
    requires Inv(s) && Enabled(s, step) && step.LoadAcks?
    ensures Inv(Apply(s, step))
  {
    LoadRowsOk(s, step);
    LoadRecordsOk(s, step);
  }

  lemma PollKeepsInv(s: State, step: Step)
    requires Inv(s) && Enabled(s, step) && step.Poll?
    ensures Inv(Apply(s, step))
  {
    var t := Apply(s, step);
    PollProcessOk(s, step);
    PollDropsBilled(s, step);
    forall b
      ensures IsMade(s, b) ==> IsMade(t, b)
    {
      assert ProcessOk(s, s.procs[s.route[step.n]]);
    }
    assert HistoryOk(t) by {
      assert ProcessOk(t, t.procs[s.route[step.n]]);
    }
    forall b | IsBilled(t.log, b) && Arrivable(t, b)
      ensures IsRecorded(t, b)
    {
      assert IsMade(s, b);
      PollArrivable(s, step, b);
    }
  }

  /** A batch the panel can be handed after a poll could be handed to it before, or is new. */
  lemma PollArrivable(s: State, step: Step, b: Batch)
    requires ProcessesOk(s) && Enabled(s, step) && step.Poll?
    requires Arrivable(Apply(s, step), b) && IsMade(s, b)
    ensures Arrivable(s, b)
  {
    var t := Apply(s, step);
    var p := s.route[step.n];
    assert ProcessOk(s, s.procs[p]);
    if q :| q in t.procs && t.procs[q].hold == Holding(b) {
      assert q in s.procs && s.procs[q].hold == Holding(b);
    } else if t.procs[p].hold != Holding(b) {
      var n :| n in t.seen && t.seen[n] == b;
      assert n in s.seen && s.seen[n] == b;
    }
  }

  /** An acknowledgement that makes a process drop its batch names a billed batch. */
  lemma PollDropsBilled(s: State, step: Step)
    requires Inv(s) && Enabled(s, step) && step.Poll?
    ensures forall b :: b in Apply(s, step).dropped ==> IsBilled(s.log, b)
  {
    var p, ack := s.route[step.n], s.acks[step.n];
    var hold := s.procs[p].hold;
    if hold.Holding? && ack.Ack? && KeptAfter(hold, ack).Empty? {
      var b := hold.batch;
      assert ProcessOk(s, s.procs[p]);
      assert IsBilled(s.log, Batch(b.serial, ack.id));
      assert IsMade(s, Batch(b.serial, ack.id));
      assert Batch(b.serial, ack.id) == b;
    }
  }

  lemma PollProcessOk(s: State, step: Step)
    requires ProcessesOk(s) && Enabled(s, step) && step.Poll?
    ensures ProcessesOk(Apply(s, step))
  {
    var t := Apply(s, step);
    var p := s.route[step.n];
    assert UsesSerial(s.procs[p], s.procs[p].serial);
    forall q | q in t.procs
      ensures ProcessOk(t, t.procs[q])
    {
      assert ProcessOk(s, s.procs[q]);
      assert q != p ==> !UsesSerial(s.procs[q], s.procs[p].serial);
    }
    forall q, serial | q in t.procs && UsesSerial(t.procs[q], serial)
      ensures UsesSerial(s.procs[q], serial)
    {
    }
  }

  lemma SubmitKeepsInv(s: State, step: Step)
    requires Inv(s) && Enabled(s, step) && step.Submit? && step.committed && Careful(s, step)
    ensures Inv(Apply(s, step))
  {
    var t := Apply(s, step);
    SubmitHistoryOk(s, step);
    SubmitBillsNew(s, step);
    SubmitRowsOk(s, step);
    forall b | IsBilled(t.log, b) && Arrivable(t, b)
      ensures IsRecorded(t, b)
    {
      assert !Forgets(s, step, b);
      SubmitRecords(s, step, b);
    }
    forall p | p in t.procs
      ensures ProcessOk(t, t.procs[p])
    {
      assert ProcessOk(s, s.procs[p]);
    }
  }

  lemma SubmitBilled(s: State, step: Step)
    requires Enabled(s, step) && step.Submit? && step.committed
    ensures forall b :: IsBilled(s.log, b) ==> IsBilled(Apply(s, step).log, b)
    ensures forall n :: n in NewBills(s, step.nodes) ==> IsBilled(Apply(s, step).log, s.seen[n])
    ensures forall b, w, n :: BilledBy(Apply(s, step).log, b, w, n) <==>
              BilledBy(s.log, b, w, n) || (w == |s.log| && n in NewBills(s, step.nodes) && s.seen[n] == b)
  {
    var t := Apply(s, step);
    forall b | IsBilled(s.log, b)
      ensures IsBilled(t.log, b)
    {
      var w, n :| BilledBy(s.log, b, w, n);
      assert BilledBy(t.log, b, w, n);
    }
    forall n | n in NewBills(s, step.nodes)
      ensures IsBilled(t.log, s.seen[n])
    {
      assert BilledBy(t.log, s.seen[n], |s.log|, n);
    }
  }

  lemma SubmitHistoryOk(s: State, step: Step)
    requires Enabled(s, step) && step.Submit? && step.committed && HistoryOk(s)
    ensures HistoryOk(Apply(s, step))
  {
    var t := Apply(s, step);
    SubmitBilled(s, step);
    forall b | IsBilled(t.log, b)
      ensures IsMade(t, b)
    {
      var w, n :| BilledBy(t.log, b, w, n);
      if BilledBy(s.log, b, w, n) {
        assert IsBilled(s.log, b);
      }
      assert IsMade(s, b);
    }
  }

  /** A batch that passes the staleness test was not billed before, nor by another node of the write. */
  lemma SubmitBillsNew(s: State, step: Step)
    requires Inv(s) && Enabled(s, step) && step.Submit? && step.committed
    ensures BilledOnce(Apply(s, step).log)
  {
    var t := Apply(s, step);
    SubmitBilled(s, step);
    forall b, v, w, m, n | BilledBy(t.log, b, v, m) && BilledBy(t.log, b, w, n)
      ensures v == w && m == n
    {
      if v == |s.log| {
        PassedIsNew(s, step.nodes, m);
      }
      if w == |s.log| {
        PassedIsNew(s, step.nodes, n);
      }
    }
  }

  lemma PassedIsNew(s: State, nodes: set<NodeId>, n: NodeId)
    requires Inv(s) && nodes <= s.seen.Keys && n in NewBills(s, nodes)
    ensures forall w, m :: !BilledBy(s.log, s.seen[n], w, m)
    ensures forall m :: m in NewBills(s, nodes) && s.seen[m] == s.seen[n] ==> m == n
  {
    var sent, b := Sent(s, nodes), s.seen[n];
    assert !IsStale(s.table, sent, n);
    assert Arrivable(s, b);
    assert IsBilled(s.log, b) ==> IsRecorded(s, b);
    forall m | m in NewBills(s, nodes) && s.seen[m] == b
      ensures m == n
    {
      assert !IsStale(s.table, sent, m);
      assert !Carries(sent, n, m) && !Carries(sent, m, n);
    }
  }

  lemma SubmitRowsOk(s: State, step: Step)
    requires Inv(s) && Enabled(s, step) && step.Submit? && step.committed
    ensures RowsOk(Apply(s, step))
  {
    var t := Apply(s, step);
    var sent, stale := Sent(s, step.nodes), StaleNodes(s, step.nodes);
    SubmitBilled(s, step);
    forall e | e in t.table
      ensures e.Claim? ==> t.table[e].id == 0
      ensures e.Run? ==> IsBilled(t.log, Batch(e.serial, t.table[e].id))
    {
      assert forall n :: n in stale <==> IsStale(s.table, sent, n);
      RecordedIdIsBilled(s.table, sent, stale, t.table, e);
      if !(e in s.table && t.table[e].id == s.table[e].id) {
        var n :| n in sent && n !in stale && sent[n].epoch == e && sent[n].id == t.table[e].id;
        assert s.seen[n] == Batch(e.serial, t.table[e].id);
      }
    }
  }

  /** Unless the write orphans its epoch, a billed batch that was recorded or just written is recorded. */
  lemma SubmitRecords(s: State, step: Step, b: Batch)
    requires Inv(s) && Enabled(s, step) && step.Submit? && step.committed
    requires IsBilled(Apply(s, step).log, b) && Arrivable(Apply(s, step), b)
    requires !Orphans(s.table, Live(s, step.nodes), Run(b.serial))
    ensures IsRecorded(Apply(s, step), b)
  {
    var t := Apply(s, step);
    var live := Live(s, step.nodes);
    if IsBilled(s.log, b) {
      assert Arrivable(s, b);
    } else {
      SubmitBilled(s, step);
      var w, n :| BilledBy(t.log, b, w, n);
      assert !BilledBy(s.log, b, w, n);
      assert Writes(live, n, Run(b.serial));
    }
    RecordSurvivesExactly(s.table, live, t.table, Run(b.serial), b.id);
  }

  lemma StepKeepsInv(s: State, step: Step)
    requires Inv(s) && Enabled(s, step) && Careful(s, step)
    ensures Inv(Apply(s, step))
  {
    match step
    case StartProcess(_) => NewProcessKeepsInv(s, step);
    case RestartProcess(_, _) => NewProcessKeepsInv(s, step);
    case LoadAcks(_) => LoadKeepsInv(s, step);
    case Poll(_, _, _) => PollKeepsInv(s, step);
    case Submit(_, committed, _) =>
      if committed {
        SubmitKeepsInv(s, step);
      } else {
        OnlyForgetsAnswers(s, step);
      }
    case _ => OnlyForgetsAnswers(s, step);
  }

  lemma OnlyForgetsAnswers(s: State, step: Step)
    requires Inv(s) && Enabled(s, step)
    requires step.Route? || step.PanelRestart? || (step.Submit? && !step.committed)
    ensures Inv(Apply(s, step))
  {
    var t := Apply(s, step);
    forall b
      ensures Arrivable(t, b) ==> Arrivable(s, b)
    {
    }
    forall p | p in t.procs
      ensures ProcessOk(t, t.procs[p])
    {
      assert ProcessOk(s, s.procs[p]);
    }
  }

  /** What a process has dropped it does not keep. */
  ghost predicate DroppedIsGone(s: State) {
    forall b :: b in s.dropped ==> !IsHeld(s, b)
  }

  lemma PollKeepsDropped(s: State, step: Step)
    requires Inv(s) && DroppedIsGone(s) && Enabled(s, step) && step.Poll?
    ensures DroppedIsGone(Apply(s, step))
  {
    var t, p := Apply(s, step), s.route[step.n];
    forall q | q in t.procs && t.procs[q].hold.Holding?
      ensures t.procs[q].hold.batch !in t.dropped
    {
      var b := t.procs[q].hold.batch;
      assert ProcessOk(s, s.procs[q]) && ProcessOk(s, s.procs[p]);
      if q in s.procs && s.procs[q].hold == Holding(b) {
        assert IsHeld(s, b) && UsesSerial(s.procs[q], b.serial);
        assert q != p ==> !UsesSerial(s.procs[p], b.serial);
      } else {
        assert q == p && !IsMade(s, b);
      }
    }
  }

  lemma StepKeepsDropped(s: State, step: Step)
    requires Inv(s) && DroppedIsGone(s) && Enabled(s, step)
    ensures DroppedIsGone(Apply(s, step))
  {
    if step.Poll? {
      PollKeepsDropped(s, step);
    } else {
      var t := Apply(s, step);
      forall b
        ensures IsHeld(t, b) ==> IsHeld(s, b)
      {
        if q :| q in t.procs && t.procs[q].hold == Holding(b) {
          assert q in s.procs && s.procs[q].hold == Holding(b);
        }
      }
    }
  }

  lemma {:induction false} RunKeepsInv(s: State, steps: seq<Step>, t: State)
    requires Inv(s) && CarefulRun(s, steps, t)
    ensures Inv(t) && (DroppedIsGone(s) ==> DroppedIsGone(t))
    decreases |steps|
  {
    if steps != [] {
      StepKeepsInv(s, steps[0]);
      if DroppedIsGone(s) {
        StepKeepsDropped(s, steps[0]);
      }
      RunKeepsInv(Apply(s, steps[0]), steps[1..], t);
    }
  }

  /**
   * In every run that never forgets a batch: each batch is billed at most once, and a
   * process drops a batch on an acknowledgement only after it was billed, and for good.
   */
  lemma EveryCarefulRunBillsOnce(steps: seq<Step>, t: State)
    requires CarefulRun(Initial, steps, t)
    ensures BilledOnce(t.log)
    ensures forall b :: b in t.dropped ==> IsBilled(t.log, b) && !IsHeld(t, b)
  {
    assert forall b :: !IsBilled(Initial.log, b);
    RunKeepsInv(Initial, steps, t);
  }

  // --------------------------------------------------- what the panel remembers

  /** What the panel keeps of a node in memory. */
  datatype Memory = SeenBatch | KnownEpoch | LoadedAck

  ghost predicate Remembers(s: State, what: Memory, n: NodeId) {
    match what
    case SeenBatch => n in s.seen
    case KnownEpoch => n in s.known
    case LoadedAck => n in s.acks
  }

  /** An answer that arrived brings a batch and an epoch, and loading brings the acknowledgement. */
  ghost predicate Brings(step: Step, what: Memory, n: NodeId) {
    if what.LoadedAck? then step.LoadAcks? && n in step.asked else step.Poll? && step.n == n && step.answered
  }

  /** A restart of the panel forgets all; a new collection and a write forget batches, a poll its acknowledgement. */
  ghost predicate Loses(step: Step, what: Memory, n: NodeId) {
    || step.PanelRestart?
    || (what.SeenBatch? && (step.LoadAcks? || (step.Submit? && n in step.nodes)))
    || (what.LoadedAck? && ((step.LoadAcks? && n !in step.asked) || (step.Poll? && step.n == n)))
  }

  ghost predicate IsRememberedFrom(steps: seq<Step>, k: nat, what: Memory, n: NodeId) {
    k < |steps| && Brings(steps[k], what, n) && forall j :: k < j < |steps| ==> !Loses(steps[j], what, n)
  }

  lemma StepRemembers(s: State, step: Step, what: Memory, n: NodeId)
    requires Enabled(s, step) && Remembers(Apply(s, step), what, n)
    ensures Brings(step, what, n) || (Remembers(s, what, n) && !Loses(step, what, n))
  {
  }

  /** Whatever the panel remembers of a node it was told in the run, and has not lost since. */
  lemma {:induction false} MemoryIsFresh(s: State, steps: seq<Step>, t: State, what: Memory, n: NodeId)
    requires Runs(s, steps, t) && Remembers(t, what, n)
    ensures || (exists k: nat :: IsRememberedFrom(steps, k, what, n))
            || (Remembers(s, what, n) && forall j :: 0 <= j < |steps| ==> !Loses(steps[j], what, n))
    decreases |steps|
  {
    if steps != [] {
      var next, rest := Apply(s, steps[0]), steps[1..];
      MemoryIsFresh(next, rest, t, what, n);
      if k: nat :| IsRememberedFrom(rest, k, what, n) {
        assert IsRememberedFrom(steps, k + 1, what, n) by {
          assert forall j :: k + 1 < j < |steps| ==> steps[j] == rest[j - 1];
        }
      } else {
        StepRemembers(s, steps[0], what, n);
        assert forall j :: 0 < j < |steps| ==> steps[j] == rest[j - 1];
        if Brings(steps[0], what, n) {
          assert IsRememberedFrom(steps, 0, what, n);
        }
      }
    }
  }

  /** A restart that does not keep the batch leaves the process without one until it is polled. */
  lemma {:induction false} RestartForgetsTheBatch(s: State, steps: seq<Step>, t: State, p: ProcessId)
    requires p in s.procs && s.procs[p].hold.Empty? && Runs(s, steps, t) && forall j :: 0 <= j < |steps| ==> !steps[j].Poll?
    ensures p in t.procs && t.procs[p].hold.Empty?
    decreases |steps|
  {
    if steps != [] {
      RestartForgetsTheBatch(Apply(s, steps[0]), steps[1..], t, p);
    }
  }

  lemma RestartedProcessIsEmpty(s: State, p: ProcessId, steps: seq<Step>, t: State)
    requires p in s.procs && Runs(Apply(s, RestartProcess(p, false)), steps, t) && forall j :: 0 <= j < |steps| ==> !steps[j].Poll?
    ensures p in t.procs && t.procs[p].hold.Empty?
  {
    RestartForgetsTheBatch(Apply(s, RestartProcess(p, false)), steps, t, p);
  }

  // ------------------------------------------------- when a batch is billed twice

  lemma SettleOne(table: AckTable, n: NodeId, batch: StatBatch) returns (after: AckTable)
    ensures Settles(table, map[n := batch], after)
    ensures after == WriteOne(table, Ids(table), n, batch)
  {
    var stored := Ids(table);
    var none: Batches := map[];
    forall e
      ensures SettlesAt(table, none, table, e)
      ensures TracksAt(table, none, stored, e)
    {
      assert forall m :: !Writes(none, m, e);
    }
    WriteOneSettles(table, none, table, stored, n, batch);
    after := WriteOne(table, stored, n, batch);
    assert none[n := batch] == map[n := batch];
  }

  lemma ResubmitBillsTwice(u: State, n: NodeId, b: Batch) returns (again: Step)
    requires n in u.seen && u.seen[n] == b && b.id > 0
    requires IsBilled(u.log, b) && Run(b.serial) !in u.table
    ensures Enabled(u, again) && !BilledOnce(Apply(u, again).log)
  {
    var batch := StatBatch(Run(b.serial), b.id, true);
    var after := SettleOne(u.table, n, batch);
    assert Sent(u, {n}) == map[n := batch];
    assert StaleNodes(u, {n}) == {} by {
      assert forall m :: !Carries(Sent(u, {n}), m, n);
    }
    assert Live(u, {n}) == map[n := batch];
    again := Submit({n}, true, after);
    SubmitBilled(u, again);
    var w, m :| BilledBy(u.log, b, w, m);
    assert BilledBy(Apply(u, again).log, b, w, m) && BilledBy(Apply(u, again).log, b, |u.log|, n);
  }

  /** The panel can ask the process that holds the batch through any id it knows. */
  lemma AsksAgain(u: State, n: NodeId, p: ProcessId) returns (steps: seq<Step>, v: State)
    requires p in u.procs && n in u.known
    ensures Runs(u, steps, v) && v.procs == u.procs && v.table == u.table && v.log == u.log
    ensures n in v.route && v.route[n] == p && n in v.acks
    ensures v.acks[n] == Ack(u.known[n], StoredId(u.table, u.known[n]))
  {
    var asked := map[n := Ack(u.known[n], StoredId(u.table, u.known[n]))];
    var routed := Apply(u, Route(n, p));
    NoClaims(routed.table, asked);
    v := Apply(routed, LoadAcks(asked));
    assert Runs(u, [], u);
    RunsSnoc(u, [], u, Route(n, p));
    RunsSnoc(u, [] + [Route(n, p)], routed, LoadAcks(asked));
    steps := [] + [Route(n, p)] + [LoadAcks(asked)];
  }

  lemma PollResends(u: State, n: NodeId, p: ProcessId, b: Batch) returns (steps: seq<Step>, v: State)
    requires p in u.procs && u.procs[p].hold == Holding(b) && b.id > 0
    requires n in u.known && Run(b.serial) !in u.table
    ensures Runs(u, steps, v)
    ensures n in v.seen && v.seen[n] == b && v.table == u.table && v.log == u.log
  {
    var asking, a := AsksAgain(u, n, p);
    v := Apply(a, Poll(n, true, true));
    assert KeptAfter(Holding(b), a.acks[n]) == Holding(b);
    RunsSnoc(u, asking, a, Poll(n, true, true));
    steps := asking + [Poll(n, true, true)];
  }

  lemma {:induction false} RunsSnoc(s: State, steps: seq<Step>, t: State, step: Step)
    requires Runs(s, steps, t) && Enabled(t, step)
    ensures Runs(s, steps + [step], Apply(t, step))
    decreases |steps|
  {
    var all := steps + [step];
    if steps == [] {
      assert all[1..] == [];
    } else {
      RunsSnoc(Apply(s, steps[0]), steps[1..], t, step);
      assert all[1..] == steps[1..] + [step];
    }
  }

  /**
   * The condition of EveryCarefulRunBillsOnce is exact: whenever a write forgets a batch,
   * the run can go on to bill that batch a second time.
   */
  lemma ForgettingBillsTwice(s: State, step: Step, b: Batch)
    requires Inv(s) && Enabled(s, step) && Forgets(s, step, b)
    ensures exists steps, t :: Runs(Apply(s, step), steps, t) && !BilledOnce(t.log)
  {
    var u := Apply(s, step);
    var live := Live(s, step.nodes);
    assert SettlesAt(s.table, live, u.table, Run(b.serial));
    SubmitHistoryOk(s, step);
    assert IsMade(u, b);
    var steps: seq<Step>, v, n := [], u, 0;
    if m :| m in u.seen && u.seen[m] == b {
      n := m;
      assert Runs(u, [], u);
    } else {
      var p :| p in u.procs && u.procs[p].hold == Holding(b);
      n := s.table[Run(b.serial)].node;
      assert n in step.nodes && n in s.seen && n in u.known;
      steps, v := PollResends(u, n, p, b);
    }
    var again := ResubmitBillsTwice(v, n, b);
    RunsSnoc(u, steps, v, again);
  }

  lemma Take(s: State, step: Step) returns (t: State)
    requires Reachable(s) && Enabled(s, step)
    ensures t == Apply(s, step) && Reachable(t)
  {
    var steps :| Runs(Initial, steps, s);
    RunsSnoc(Initial, steps, s, step);
    t := Apply(s, step);
  }

  /** An answered poll of a process that holds nothing: a new batch, or an empty answer. */
  lemma PollOfEmpty(s: State, n: NodeId, traffic: bool, serial: nat, made: nat)
    requires Enabled(s, Poll(n, traffic, true)) && s.procs[s.route[n]] == Process(serial, made, Empty)
    ensures var now := if traffic then made + 1 else made;
      var b := Batch(serial, made + 1);
      Apply(s, Poll(n, traffic, true)) ==
        s.(procs := s.procs[s.route[n] := Process(serial, now, if traffic then Holding(b) else Empty)],
           made := s.made[serial := now],
           acks := s.acks - {n},
           known := s.known[n := Run(serial)],
           seen := if traffic then s.seen[n := b] else s.seen)
  {
  }

  /** An answered poll of a process whose batch the acknowledgement does not cover: the batch again. */
  lemma PollOfHeld(s: State, n: NodeId, traffic: bool, p: Process, b: Batch)
    requires Enabled(s, Poll(n, traffic, true)) && s.procs[s.route[n]] == p && p.hold == Holding(b)
    requires KeptAfter(p.hold, s.acks[n]) == p.hold
    ensures Apply(s, Poll(n, traffic, true)) ==
            s.(procs := s.procs[s.route[n] := p],
               made := s.made[p.serial := p.made],
               acks := s.acks - {n},
               known := s.known[n := Run(b.serial)],
               seen := s.seen[n := b])
  {
  }

  lemma NoClaims(table: AckTable, asked: map<NodeId, Ack>)
    requires forall n :: n in asked ==> asked[n].Ack?
    ensures WithClaims(table, asked) == table
  {
  }

  lemma TwoClaims()
    ensures WithClaims(map[], map[5 := NoAck, 7 := NoAck]) == map[Claim(5) := AckRow(5, 0), Claim(7) := AckRow(7, 0)]
  {
  }

  function Ids(table: AckTable): map<Epoch, nat> {
    map e | e in table :: table[e].id
  }

  lemma FirstWrite()
    ensures
      var table: AckTable := map[Claim(5) := AckRow(5, 0), Claim(7) := AckRow(7, 0)];
      WriteOne(table, Ids(table), 5, StatBatch(Run(0), 1, true))
        == map[Claim(7) := AckRow(7, 0), Run(0) := AckRow(5, 1)]
  {
  }

  lemma SecondWrite()
    ensures
      var table: AckTable := map[Claim(7) := AckRow(7, 0), Run(0) := AckRow(5, 1)];
      WriteOne(table, Ids(table), 7, StatBatch(Run(0), 1, false)) == map[Run(0) := AckRow(7, 1)]
  {
  }

  /** Node ids 5 and 7 name process 0, and both ask it for the first time. */
  lemma BothIdsAsk() returns (s: State)
    ensures Reachable(s)
    ensures s == State(map[Claim(5) := AckRow(5, 0), Claim(7) := AckRow(7, 0)],
                       map[], map[5 := 0, 7 := 0], map[0 := Process(0, 0, Empty)], 1, map[0 := 0],
                       map[5 := NoAck, 7 := NoAck], map[], [], {})
  {
    assert Runs(Initial, [], Initial);
    s := Take(Initial, StartProcess(0));
    s := Take(s, Route(5, 0));
    s := Take(s, Route(7, 0));
    TwoClaims();
    s := Take(s, LoadAcks(map[5 := NoAck, 7 := NoAck]));
  }

  lemma FirstIdAnswered() returns (s: State)
    ensures Reachable(s)
    ensures s == State(map[Claim(5) := AckRow(5, 0), Claim(7) := AckRow(7, 0)],
                       map[5 := Run(0)], map[5 := 0, 7 := 0],
                       map[0 := Process(0, 0, Empty)], 1, map[0 := 0], map[7 := NoAck], map[], [], {})
  {
    var before := BothIdsAsk();
    PollOfEmpty(before, 5, false, 0, 0);
    s := Take(before, Poll(5, false, true));
    assert before.acks - {5} == map[7 := NoAck];
  }

  lemma BothIdsAnswered() returns (s: State)
    ensures Reachable(s)
    ensures s == State(map[Claim(5) := AckRow(5, 0), Claim(7) := AckRow(7, 0)],
                       map[5 := Run(0), 7 := Run(0)], map[5 := 0, 7 := 0],
                       map[0 := Process(0, 0, Empty)], 1, map[0 := 0], map[], map[], [], {})
  {
    var before := FirstIdAnswered();
    PollOfEmpty(before, 7, false, 0, 0);
    s := Take(before, Poll(7, false, true));
    assert before.acks - {7} == map[];
  }

  lemma BothIdsKnown() returns (s: State)
    ensures Reachable(s)
    ensures s == State(map[Claim(5) := AckRow(5, 0), Claim(7) := AckRow(7, 0)],
                       map[5 := Run(0), 7 := Run(0)], map[5 := 0, 7 := 0],
                       map[0 := Process(0, 0, Empty)], 1, map[0 := 0],
                       map[5 := Ack(Run(0), 0), 7 := Ack(Run(0), 0)], map[], [], {})
  {
    s := BothIdsAnswered();
    var asked := map[5 := Ack(Run(0), 0), 7 := Ack(Run(0), 0)];
    NoClaims(s.table, asked);
    s := Take(s, LoadAcks(asked));
  }

  lemma FirstIdSent() returns (s: State)
    ensures Reachable(s)
    ensures s == State(map[Claim(5) := AckRow(5, 0), Claim(7) := AckRow(7, 0)],
                       map[5 := Run(0), 7 := Run(0)], map[5 := 0, 7 := 0],
                       map[0 := Process(0, 1, Holding(Batch(0, 1)))], 1, map[0 := 1],
                       map[7 := Ack(Run(0), 0)], map[5 := Batch(0, 1)], [], {})
  {
    var before := BothIdsKnown();
    PollOfEmpty(before, 5, true, 0, 0);
    s := Take(before, Poll(5, true, true));
    assert before.acks - {5} == map[7 := Ack(Run(0), 0)];
  }

  /** Process 0 holds a batch that both ids were sent. */
  lemma BothIdsSent() returns (s: State)
    ensures Reachable(s)
    ensures s == State(map[Claim(5) := AckRow(5, 0), Claim(7) := AckRow(7, 0)],
                       map[5 := Run(0), 7 := Run(0)], map[5 := 0, 7 := 0],
                       map[0 := Process(0, 1, Holding(Batch(0, 1)))], 1, map[0 := 1],
                       map[], map[5 := Batch(0, 1), 7 := Batch(0, 1)], [], {})
  {
    var before := FirstIdSent();
    PollOfHeld(before, 7, true, Process(0, 1, Holding(Batch(0, 1))), Batch(0, 1));
    s := Take(before, Poll(7, true, true));
    assert before.acks - {7} == map[];
  }

  lemma SubmitAlone(s: State, n: NodeId) returns (step: Step)
    requires n in s.seen && s.seen[n].id > 0
    ensures step.Submit? && step.nodes == {n} && step.committed && Enabled(s, step)
    ensures
      var b := s.seen[n];
      var stale := b.id <= StoredId(s.table, Run(b.serial));
      var batch := StatBatch(Run(b.serial), b.id, !stale);
      && Live(s, {n}) == map[n := batch]
      && step.after == WriteOne(s.table, Ids(s.table), n, batch)
      && NewBills(s, {n}) == if stale then map[] else map[n := b]
  {
    var b := s.seen[n];
    var stale := b.id <= StoredId(s.table, Run(b.serial));
    var batch := StatBatch(Run(b.serial), b.id, !stale);
    assert forall m :: !Carries(Sent(s, {n}), m, n);
    assert StaleNodes(s, {n}) == if stale then {n} else {};
    assert Live(s, {n}) == map[n := batch];
    var after := SettleOne(s.table, n, batch);
    step := Submit({n}, true, after);
  }

  lemma BatchBilledOnce() returns (s: State)
    ensures Reachable(s)
    ensures s == State(map[Claim(7) := AckRow(7, 0), Run(0) := AckRow(5, 1)],
                       map[5 := Run(0), 7 := Run(0)], map[5 := 0, 7 := 0],
                       map[0 := Process(0, 1, Holding(Batch(0, 1)))], 1, map[0 := 1],
                       map[], map[7 := Batch(0, 1)], [map[5 := Batch(0, 1)]], {})
  {
    var sent := BothIdsSent();
    var first := SubmitAlone(sent, 5);
    FirstWrite();
    assert first.after == map[Claim(7) := AckRow(7, 0), Run(0) := AckRow(5, 1)];
    assert sent.seen - {5} == map[7 := Batch(0, 1)];
    assert sent.log + [NewBills(sent, {5})] == [map[5 := Batch(0, 1)]];
    s := Take(sent, first);
  }

  /** The batch is billed through id 5 and acknowledged through id 7, whose row it becomes. */
  lemma BatchBilled() returns (s: State)
    ensures Reachable(s)
    ensures s == State(map[Run(0) := AckRow(7, 1)],
                       map[5 := Run(0), 7 := Run(0)], map[5 := 0, 7 := 0],
                       map[0 := Process(0, 1, Holding(Batch(0, 1)))], 1, map[0 := 1],
                       map[], map[], [map[5 := Batch(0, 1)], map[]], {})
  {
    s := BatchBilledOnce();
    var second := SubmitAlone(s, 7);
    SecondWrite();
    s := Take(s, second);
    assert s.seen == map[];
  }

  lemma OneIdPointedElsewhere() returns (s: State)
    ensures Reachable(s)
    ensures s == State(map[Run(0) := AckRow(7, 1)],
                       map[5 := Run(0), 7 := Run(0)], map[5 := 0, 7 := 1],
                       map[0 := Process(0, 1, Holding(Batch(0, 1))), 1 := Process(1, 0, Empty)],
                       2, map[0 := 1, 1 := 0], map[], map[], [map[5 := Batch(0, 1)], map[]], {})
  {
    s := BatchBilled();
    s := Take(s, StartProcess(1));
    s := Take(s, Route(7, 1));
  }

  lemma OneIdAsks() returns (s: State)
    ensures Reachable(s)
    ensures s == State(map[Run(0) := AckRow(7, 1)],
                       map[5 := Run(0), 7 := Run(0)], map[5 := 0, 7 := 1],
                       map[0 := Process(0, 1, Holding(Batch(0, 1))), 1 := Process(1, 0, Empty)],
                       2, map[0 := 1, 1 := 0], map[7 := Ack(Run(0), 1)], map[],
                       [map[5 := Batch(0, 1)], map[]], {})
  {
    s := OneIdPointedElsewhere();
    var asked := map[7 := Ack(Run(0), 1)];
    NoClaims(s.table, asked);
    s := Take(s, LoadAcks(asked));
  }

  /** Id 7 is pointed at process 1, which sends a batch of its own. */
  lemma OneIdMoved() returns (s: State)
    ensures Reachable(s)
    ensures s == State(map[Run(0) := AckRow(7, 1)],
                       map[5 := Run(0), 7 := Run(1)], map[5 := 0, 7 := 1],
                       map[0 := Process(0, 1, Holding(Batch(0, 1))), 1 := Process(1, 1, Holding(Batch(1, 1)))],
                       2, map[0 := 1, 1 := 1], map[], map[7 := Batch(1, 1)],
                       [map[5 := Batch(0, 1)], map[]], {})
  {
    var before := OneIdAsks();
    PollOfEmpty(before, 7, true, 1, 0);
    s := Take(before, Poll(7, true, true));
    assert before.acks - {7} == map[];
  }

  /**
   * The code does not keep every run careful: when two node ids name one process and one
   * of them is pointed at another process, the record of the batch still held is deleted,
   * and a run exists that bills the batch twice.
   */
  lemma SomeRunBillsTwice()
    ensures exists t :: Reachable(t) && !BilledOnce(t.log)
  {
    var s := OneIdMoved();
    var third := SubmitAlone(s, 7);
    s := Take(s, third);
    var b := Batch(0, 1);
    assert BilledBy(s.log, b, 0, 5);
    assert Run(0) !in s.table;
    var more, v := PollResends(s, 5, 0, b);
    var again := ResubmitBillsTwice(v, 5, b);
    var steps :| Runs(Initial, steps, s);
    RunsConcat(Initial, steps, s, more, v);
    var t := Take(v, again);
  }

  lemma {:induction false} RunsConcat(s: State, before: seq<Step>, t: State, after: seq<Step>, u: State)
    requires Runs(s, before, t) && Runs(t, after, u)
    ensures Runs(s, before + after, u)
    decreases |before|
  {
    var all := before + after;
    if before == [] {
      assert all == after;
    } else {
      RunsConcat(Apply(s, before[0]), before[1..], t, after, u);
      assert all[1..] == before[1..] + after;
    }
  }
}
