/**
 * Runs of the user-usage job (app/jobs/record_usages.py): ticks that poll nodes with a
 * destructive read, write what they read in cohorts, and keep in memory what could not be
 * written, while users are created, deleted and reset at any point.
 */
module UsageTicks {
  import opened UsageAggregation
  import opened FencedUsage

  const MAX_ATTEMPTS: nat := 10
  const MAX_CONSECUTIVE_FAILURES: nat := 2

  /**
   * What a node answered: its reading, and whether the answer named a batch the node keeps.
   * The serial number and the users' epochs at that moment are history.
   */
  datatype Answer = Answer(serial: nat, reading: Reading, batched: bool, epochsThen: Epochs)

  type Answers = map<NodeId, Answer>

  /** Answers that are written together. The users as they were when the tick began are history. */
  datatype Cohort = Cohort(answers: Answers, epochs: Epochs, attempts: nat, began: Users)

  /** Bytes that exist nowhere but in this answer: the node has reset them and keeps no batch. */
  predicate IsSoleCopy(a: Answer) {
    !a.batched && a.reading.params != []
  }

  function LegacyParams(answers: Answers): Answers {
    map n | n in answers && IsSoleCopy(answers[n]) :: answers[n]
  }

  predicate Keeps(c: Cohort, inDoubt: bool) {
    LegacyParams(c.answers) != map[] && !inDoubt && c.attempts + 1 < MAX_ATTEMPTS
  }

  /** The retained list after a failed write: the cohort goes back to the front, or is given up. */
  function AfterFailure(retained: seq<Cohort>, c: Cohort, inDoubt: bool): seq<Cohort> {
    if Keeps(c, inDoubt) then
      [Cohort(LegacyParams(c.answers), c.epochs, c.attempts + 1, c.began)] + retained
    else
      retained
  }

  function AfterCollection(retained: seq<Cohort>, unprocessed: Answers, epochs: Epochs, began: Users): seq<Cohort> {
    if LegacyParams(unprocessed) == map[] then
      retained
    else
      retained + [Cohort(LegacyParams(unprocessed), epochs, 0, began)]
  }

  datatype Fate = Success | CleanFailure | InDoubtFailure

  /** The module state `_retained_cohorts` and the functions that change it. */
  class Recorder {
    var retained: seq<Cohort>

    constructor ()
      ensures retained == []
    {
      retained := [];
    }

    /** _keep_or_abandon_retained. */
    method KeepOrAbandonRetained(c: Cohort, inDoubt: bool) returns (gaveUp: bool)
      modifies this
      ensures retained == AfterFailure(old(retained), c, inDoubt)
      ensures gaveUp <==> LegacyParams(c.answers) != map[] && !Keeps(c, inDoubt)
    {
      var left := LegacyParams(c.answers);
      if left == map[] {
        return false;
      }
      var attempts := c.attempts + 1;
      if !inDoubt && attempts < MAX_ATTEMPTS {
        retained := [Cohort(left, c.epochs, attempts, c.began)] + retained;
        return false;
      }
      return true;
    }

    /** _retain_finished_collections. */
    method RetainFinishedCollections(unprocessed: Answers, epochs: Epochs, began: Users)
      modifies this
      ensures retained == AfterCollection(old(retained), unprocessed, epochs, began)
    {
      var left := LegacyParams(unprocessed);
      if left != map[] {
        retained := retained + [Cohort(left, epochs, 0, began)];
      }
    }

    /** _persist_retained_cohorts, where fates[i] is how the i-th write ends. */
    method PersistRetainedCohorts(fates: seq<Fate>) returns (drained: bool, writes: nat)
      requires |fates| >= |retained|
      modifies this
      ensures writes <= |old(retained)|
      ensures drained ==> writes == |old(retained)| && retained == []
      ensures !drained ==> writes < |old(retained)| && fates[writes] != Success
      ensures !drained ==>
                retained == AfterFailure(old(retained)[writes + 1..], old(retained)[writes], fates[writes] == InDoubtFailure)
      ensures forall i :: 0 <= i < writes ==> fates[i] == Success
    {
      writes := 0;
      while retained != []
        invariant writes <= |old(retained)| && retained == old(retained)[writes..]
        invariant forall i :: 0 <= i < writes ==> fates[i] == Success
        decreases |retained|
      {
        var c := retained[0];
        retained := retained[1..];
        if fates[writes] != Success {
          var _ := KeepOrAbandonRetained(c, fates[writes] == InDoubtFailure);
          return false, writes;
        }
        writes := writes + 1;
      }
      drained := true;
    }
  }

  // ---------------------------------------------------------------- the machine

  datatype Stage = Idle | Draining | Collecting | Settling

  datatype Task = Waiting | Asked(poll: nat) | Answered(answer: Answer) | Failed | Done | Cancelled

  /** What is submitted, in which order the answers were read, and against which users it was prepared. */
  datatype Submission = NotYet | Ready(order: seq<NodeId>, deltas: Totals, context: Users)

  /** The write under way; the nodes whose batch turned out to be billed already are history. */
  datatype Writing = NoWrite | Writing(cohort: Cohort, submission: Submission, stale: set<NodeId>)

  /**
   * A committed write: the cohort, what of it was submitted and billed, the users at both
   * moments, and the nodes found stale.
   */
  datatype Commit = Commit(cohort: Cohort, order: seq<NodeId>, context: Users, billed: Totals, met: Users, stale: set<NodeId>)

  /** A write that failed, and whether its commit is in doubt. */
  datatype Failure = Failure(cohort: Cohort, inDoubt: bool)

  /** How a write of the collection under way ended. */
  datatype WriteEnd = Wrote | NotWritten(retriable: bool)

  /**
   * The job's state with the users, and history: the users and the failed writes when the tick
   * began, the users deleted, the polls issued and those that ended, what the nodes replied, how the writes of the collection ended, the first read of the
   * collection, and what became of each read.
   */
  datatype State = State(
    users: Users,
    everUsed: set<UserId>,
    retained: seq<Cohort>,
    stage: Stage,
    tasks: map<NodeId, Task>,
    epochs: Epochs,
    failures: nat,
    writing: Writing,
    began: Users,
    failedBefore: nat,
    deleted: set<UserId>,
    polls: nat,
    ended: set<nat>,
    ends: seq<WriteEnd>,
    firstRead: nat,
    received: nat,
    replies: seq<Reading>,
    sole: set<nat>,
    commits: seq<Commit>,
    failed: seq<Failure>,
    finished: set<nat>,
    givenUp: set<nat>)

  datatype Step =
    | CreateUser(u: UserId, owner: Owner)
    | DeleteUser(u: UserId)
    | ResetUser(u: UserId)
    | BeginTick
    | PopRetained
    | StartCollection(nodes: set<NodeId>)
    | EndTick
    | Ask(n: NodeId)
    | Reply(n: NodeId, reading: Reading, batched: bool)
    | LoseReply(n: NodeId)
    | TakeBatch(nodes: set<NodeId>)
    | Prepare(order: seq<NodeId>)
    | FindStale(nodes: set<NodeId>)
    | Succeed
    | FailCleanly(retriable: bool)
    | FailInDoubt(landed: bool, retriable: bool)
    | EndCollection
    | FinishSettling

  const Initial := State(map[], {}, [], Idle, map[], map[], 0, NoWrite, map[], 0, {}, 0, {}, [], 0, 0, [], {}, [], [], {}, {})

  function ReadingsIn(answers: Answers, order: seq<NodeId>): seq<Reading>
    requires forall n :: n in order ==> n in answers
  {
    seq(|order|, i requires 0 <= i < |order| => answers[order[i]].reading)
  }

  function EpochsOf(users: Users): Epochs {
    map u | u in users :: users[u].epoch
  }

  predicate IsFinishedTask(t: Task) {
    t.Answered? || t.Failed?
  }

  function AnswersOf(tasks: map<NodeId, Task>, nodes: set<NodeId>): Answers {
    map n | n in tasks && n in nodes && tasks[n].Answered? :: tasks[n].answer
  }

  function SoleSerials(answers: Answers): set<nat> {
    set n | n in answers && IsSoleCopy(answers[n]) :: answers[n].serial
  }

  ghost predicate Enabled(s: State, step: Step) {
    match step
    case CreateUser(u, _) => u !in s.everUsed
    case DeleteUser(u) => u in s.users
    case ResetUser(u) => u in s.users
    case BeginTick => s.stage == Idle
    case PopRetained => s.stage == Draining && s.writing.NoWrite? && s.retained != []
    case StartCollection(_) => s.stage == Draining && s.writing.NoWrite? && s.retained == []
    case EndTick => s.stage == Draining && s.writing.NoWrite? && s.retained == []
    case Ask(n) => s.stage == Collecting && n in s.tasks && s.tasks[n] == Waiting
    case Reply(n, reading, _) => n in s.tasks && s.tasks[n].Asked? && reading.node == n
    case LoseReply(n) => n in s.tasks && s.tasks[n].Asked?
    case TakeBatch(nodes) =>
      && s.stage == Collecting && s.writing.NoWrite? && nodes != {}
      && forall n :: n in nodes ==> n in s.tasks && IsFinishedTask(s.tasks[n])
    case Prepare(order) =>
      && s.writing.Writing? && s.writing.submission.NotYet?
      && (set n | n in order) == s.writing.cohort.answers.Keys
      && forall i, j :: 0 <= i < j < |order| ==> order[i] != order[j]
    case FindStale(nodes) =>
      && s.writing.Writing?
      && forall n :: n in nodes ==> n in s.writing.cohort.answers && s.writing.cohort.answers[n].batched
    case Succeed => s.writing.Writing? && s.writing.submission.Ready?
    case FailCleanly(_) => s.writing.Writing?
    case FailInDoubt(landed, _) => s.writing.Writing? && (landed ==> s.writing.submission.Ready?)
    case EndCollection => s.stage == Collecting && s.writing.NoWrite? && forall n :: n in s.tasks ==> s.tasks[n] == Done
    case FinishSettling => s.stage == Settling && forall n :: n in s.tasks ==> !s.tasks[n].Asked?
  }

  /** The billing transaction of the write under way takes effect. */
  ghost function Commits(s: State): State
    requires s.writing.Writing? && s.writing.submission.Ready?
  {
    var c, sub := s.writing.cohort, s.writing.submission;
    var billed := Billed(s.users, c.epochs, sub.deltas);
    s.(users := AfterBilling(s.users, billed),
       commits := s.commits + [Commit(c, sub.order, sub.context, billed, s.users, s.writing.stale)])
  }

  function StopAsking(tasks: map<NodeId, Task>): map<NodeId, Task> {
    map n | n in tasks :: if tasks[n] == Waiting then Cancelled else tasks[n]
  }

  ghost function Fails(s: State, inDoubt: bool, retriable: bool): State
    requires s.writing.Writing?
  {
    var c := s.writing.cohort;
    var draining := s.stage == Draining;
    var stop := !draining && !(retriable && s.failures + 1 < MAX_CONSECUTIVE_FAILURES);
    s.(writing := NoWrite,
       retained := AfterFailure(s.retained, c, inDoubt),
       failed := s.failed + [Failure(c, inDoubt)],
       givenUp := if Keeps(c, inDoubt) then s.givenUp else s.givenUp + SoleSerials(c.answers),
       stage := if draining then Idle else if stop then Settling else s.stage,
       failures := if draining then s.failures else s.failures + 1,
       ends := s.ends + [NotWritten(retriable)],
       tasks := if stop then StopAsking(s.tasks) else s.tasks)
  }

  ghost function Apply(s: State, step: Step): State
    requires Enabled(s, step)
  {
    match step
    case CreateUser(u, owner) => s.(users := s.users[u := UserRow(owner, 0, 0)], everUsed := s.everUsed + {u})
    case DeleteUser(u) => s.(users := s.users - {u}, deleted := s.deleted + {u})
    case ResetUser(u) => s.(users := s.users[u := s.users[u].(epoch := s.users[u].epoch + 1, used := 0)])
    case BeginTick => s.(stage := Draining, epochs := EpochsOf(s.users), began := s.users, failedBefore := |s.failed|)
    case PopRetained => s.(writing := Writing(s.retained[0], NotYet, {}), retained := s.retained[1..])
    case StartCollection(nodes) =>
      s.(stage := Collecting, tasks := map n | n in nodes :: Waiting, failures := 0, ends := [], firstRead := s.received)
    case EndTick => s.(stage := Idle)
    case Ask(n) => s.(tasks := s.tasks[n := Asked(s.polls)], polls := s.polls + 1)
    case Reply(n, reading, batched) =>
      s.(tasks := s.tasks[n := Answered(Answer(s.received, reading, batched, EpochsOf(s.users)))],
         received := s.received + 1, replies := s.replies + [reading], ended := s.ended + {s.tasks[n].poll},
         sole := if !batched && reading.params != [] then s.sole + {s.received} else s.sole)
    case LoseReply(n) => s.(tasks := s.tasks[n := Failed], ended := s.ended + {s.tasks[n].poll})
    case TakeBatch(nodes) =>
      s.(writing := Writing(Cohort(AnswersOf(s.tasks, nodes), s.epochs, 0, s.began), NotYet, {}),
         tasks := map n | n in s.tasks :: if n in nodes then Done else s.tasks[n])
    case Prepare(order) =>
      var c := s.writing.cohort;
      s.(writing := Writing(c, Ready(order, Submittable(ReadingsIn(c.answers, order), s.users, c.epochs), s.users), s.writing.stale))
    case FindStale(nodes) =>
      var c := s.writing.cohort;
      var emptied := map n | n in c.answers ::
        if n in nodes then c.answers[n].(reading := c.answers[n].reading.(params := [])) else c.answers[n];
      s.(writing := Writing(c.(answers := emptied), NotYet, s.writing.stale + nodes))
    case Succeed =>
      Commits(s).(writing := NoWrite, failures := 0, ends := s.ends + [Wrote],
                  finished := s.finished + SoleSerials(s.writing.cohort.answers))
    case FailCleanly(retriable) => Fails(s, false, retriable)
    case FailInDoubt(landed, retriable) =>
      Fails(if landed then Commits(s) else s, true, retriable)
    case EndCollection => s.(stage := Settling)
    case FinishSettling =>
      s.(stage := Idle, tasks := map[],
         retained := AfterCollection(s.retained, AnswersOf(s.tasks, s.tasks.Keys), s.epochs, s.began))
  }

  ghost predicate Runs(s: State, steps: seq<Step>, t: State)
    decreases |steps|
  {
    if steps == [] then s == t else Enabled(s, steps[0]) && Runs(Apply(s, steps[0]), steps[1..], t)
  }

  // --------------------------------------------------------------- the properties

  /** Where an answer not yet dealt with is kept. */
  datatype Place = InRetained(i: nat, n: NodeId) | InWriting(n: NodeId) | InTask(n: NodeId)

  ghost predicate IsAt(s: State, l: Place) {
    match l
    case InRetained(i, n) => i < |s.retained| && n in s.retained[i].answers
    case InWriting(n) => s.writing.Writing? && n in s.writing.cohort.answers
    case InTask(n) => n in s.tasks && s.tasks[n].Answered?
  }

  ghost function At(s: State, l: Place): Answer
    requires IsAt(s, l)
  {
    match l
    case InRetained(i, n) => s.retained[i].answers[n]
    case InWriting(n) => s.writing.cohort.answers[n]
    case InTask(n) => s.tasks[n].answer
  }

  /** The only copy of some bytes is kept at l. */
  ghost predicate Holds(s: State, l: Place, serial: nat) {
    IsAt(s, l) && IsSoleCopy(At(s, l)) && At(s, l).serial == serial
  }

  ghost predicate IsHeld(s: State, serial: nat) {
    exists l :: Holds(s, l, serial)
  }

  ghost predicate CommittedIn(commits: seq<Commit>, i: nat, serial: nat) {
    i < |commits| && serial in SoleSerials(commits[i].cohort.answers)
  }

  ghost predicate IsCommitted(commits: seq<Commit>, serial: nat) {
    exists i :: CommittedIn(commits, i, serial)
  }

  /** No sole copy is part of two committed writes. */
  ghost predicate WrittenAtMostOnce(s: State) {
    forall serial, i, j :: CommittedIn(s.commits, i, serial) && CommittedIn(s.commits, j, serial) ==> i == j
  }

  /** Every sole copy is kept in exactly one place, or was finished with, or was given up. */
  ghost predicate EveryReadIsPlaced(s: State) {
    && (forall serial :: serial in s.sole ==> IsHeld(s, serial) || serial in s.finished || serial in s.givenUp)
    && (forall serial, l, m :: Holds(s, l, serial) && Holds(s, m, serial) ==> l == m)
    && (forall serial, l :: Holds(s, l, serial) ==>
          serial in s.sole && serial !in s.finished && serial !in s.givenUp && !IsCommitted(s.commits, serial))
    && s.finished !! s.givenUp && s.finished + s.givenUp <= s.sole
    && (forall serial :: IsCommitted(s.commits, serial) ==> serial in s.finished || serial in s.givenUp)
  }

  /** What is retained has no copy on a node, and has been tried fewer than ten times. */
  ghost predicate RetainedIsSole(s: State) {
    forall i :: 0 <= i < |s.retained| ==> IsRetainable(s.retained[i])
  }

  ghost predicate IsRetainable(c: Cohort) {
    c.attempts < MAX_ATTEMPTS && forall n :: n in c.answers ==> IsSoleCopy(c.answers[n])
  }

  /** The order lists every answer of the cohort, and none twice. */
  ghost predicate IsOrderOf(order: seq<NodeId>, answers: Answers) {
    && (forall n :: n in order <==> n in answers)
    && forall i, j :: 0 <= i < j < |order| ==> order[i] != order[j]
  }

  ghost function EpochThen(began: Users, u: UserId): nat {
    if u in began then began[u].epoch else 0
  }

  /** The user has a row, and was not reset since the tick began. */
  ghost predicate IsUntouched(began: Users, users: Users, u: UserId) {
    u in users && users[u].epoch == EpochThen(began, u)
  }

  /**
   * A write bills a user all bytes of the user in the cohort, each answer counted once, and only if
   * the user was not reset since they were read. It bills exactly the users with bytes who were
   * there, and not reset since the tick of the cohort began, when it was prepared and when it
   * committed.
   */
  ghost predicate IsHonest(w: Commit) {
    && IsOrderOf(w.order, w.cohort.answers)
    && (forall u :: u in w.billed ==>
          && u in w.met
          && w.billed[u] == UserTotal(ReadingsIn(w.cohort.answers, w.order), u)
          && forall n :: n in w.cohort.answers ==> EpochAt(w.cohort.answers[n].epochsThen, u) == w.met[u].epoch)
    && (forall u: UserId :: u in w.billed <==>
          && UserTotal(ReadingsIn(w.cohort.answers, w.order), u) > 0
          && IsUntouched(w.cohort.began, w.context, u)
          && IsUntouched(w.cohort.began, w.met, u))
  }

  ghost predicate EveryWriteIsHonest(s: State) {
    forall i :: 0 <= i < |s.commits| ==> IsHonest(s.commits[i])
  }

  /** The bytes that committed writes billed to the user at this epoch. */
  ghost function BilledAt(commits: seq<Commit>, u: UserId, epoch: nat): nat {
    if commits == [] then
      0
    else
      var w := commits[|commits| - 1];
      BilledAt(commits[..|commits| - 1], u, epoch)
      + if u in w.billed && u in w.met && w.met[u].epoch == epoch then w.billed[u] else 0
  }

  /** Each user's counter is exactly what was billed since the user's last reset. */
  ghost predicate CountersAreExact(s: State) {
    forall u :: u in s.users ==> s.users[u].used == BilledAt(s.commits, u, s.users[u].epoch)
  }

  ghost function FailedWrites(failed: seq<Failure>, serial: nat): nat {
    if failed == [] then
      0
    else
      FailedWrites(failed[..|failed| - 1], serial)
      + if serial in SoleSerials(failed[|failed| - 1].cohort.answers) then 1 else 0
  }

  ghost predicate IsInDoubt(failed: seq<Failure>, serial: nat) {
    exists i :: 0 <= i < |failed| && failed[i].inDoubt && serial in SoleSerials(failed[i].cohort.answers)
  }

  /** How often the write of what is kept at l has failed. */
  ghost function AttemptsAt(s: State, l: Place): nat
    requires IsAt(s, l)
  {
    match l
    case InRetained(i, _) => s.retained[i].attempts
    case InWriting(_) => s.writing.cohort.attempts
    case InTask(_) => 0
  }

  /**
   * A sole copy is finished with only by a committed write that holds it, and given up
   * exactly when a write of it is in doubt or the tenth write of it failed; what is kept has
   * been in as many failed writes as its attempts say.
   */
  ghost predicate IsJustified(s: State, serial: nat) {
    && (serial !in s.sole ==> FailedWrites(s.failed, serial) == 0 && !IsInDoubt(s.failed, serial))
    && (forall l :: Holds(s, l, serial) ==> FailedWrites(s.failed, serial) == AttemptsAt(s, l) && !IsInDoubt(s.failed, serial))
    && (serial in s.finished ==>
          IsCommitted(s.commits, serial) && FailedWrites(s.failed, serial) < MAX_ATTEMPTS && !IsInDoubt(s.failed, serial))
    && (serial in s.givenUp ==> IsInDoubt(s.failed, serial) || FailedWrites(s.failed, serial) == MAX_ATTEMPTS)
  }

  ghost predicate EveryFateIsJustified(s: State) {
    forall serial: nat :: IsJustified(s, serial)
  }

  // ------------------------------------------------------------- shape invariant

  ghost predicate StageOk(s: State) {
    && (s.writing.Writing? ==> s.stage == Draining || s.stage == Collecting)
    && (s.stage == Idle || s.stage == Draining ==> s.tasks == map[])
    && (forall serial :: serial in s.sole ==> serial < s.received)
    && (s.writing.Writing? ==> s.writing.cohort.attempts < MAX_ATTEMPTS)
  }

  ghost predicate SubmissionOk(s: State) {
    s.writing.Writing? && s.writing.submission.Ready? ==>
      var c, sub := s.writing.cohort, s.writing.submission;
      && IsOrderOf(sub.order, c.answers)
      && sub.deltas == Submittable(ReadingsIn(c.answers, sub.order), sub.context, c.epochs)
  }

  /** Epochs read before an answer arrived, then, and now, never decrease for a user that still exists. */
  ghost predicate Ordered(s: State, before: Epochs, a: Answer) {
    && before.Keys <= s.everUsed && a.epochsThen.Keys <= s.everUsed
    && forall u :: u in s.users ==> EpochAt(before, u) <= EpochAt(a.epochsThen, u) <= s.users[u].epoch
  }

  ghost predicate CohortOrdered(s: State, c: Cohort) {
    forall n :: n in c.answers ==> Ordered(s, c.epochs, c.answers[n])
  }

  ghost predicate EpochsOk(s: State) {
    && s.users.Keys <= s.everUsed
    && s.epochs.Keys <= s.everUsed
    && (s.stage != Idle ==> forall u :: u in s.users ==> EpochAt(s.epochs, u) <= s.users[u].epoch)
    && (forall i :: 0 <= i < |s.retained| ==> CohortOrdered(s, s.retained[i]))
    && (s.writing.Writing? ==> CohortOrdered(s, s.writing.cohort))
    && (forall n :: n in s.tasks && s.tasks[n].Answered? ==> Ordered(s, s.epochs, s.tasks[n].answer))
  }

  /** The epochs are those of the users when the tick began. */
  ghost predicate AreEpochsThen(epochs: Epochs, began: Users) {
    forall u: UserId :: EpochAt(epochs, u) == EpochThen(began, u)
  }

  ghost predicate BeganOk(s: State) {
    && AreEpochsThen(s.epochs, s.began)
    && (forall i :: 0 <= i < |s.retained| ==> AreEpochsThen(s.retained[i].epochs, s.retained[i].began))
    && (s.writing.Writing? ==> AreEpochsThen(s.writing.cohort.epochs, s.writing.cohort.began))
  }

  /** Every poll that was issued has ended, or else one task is waiting for it: no answer goes astray. */
  ghost predicate EveryPollIsFollowed(s: State) {
    && (forall p: nat :: p < s.polls ==> p in s.ended || exists n :: n in s.tasks && s.tasks[n] == Asked(p))
    && (forall n :: n in s.tasks && s.tasks[n].Asked? ==> s.tasks[n].poll < s.polls && s.tasks[n].poll !in s.ended)
    && (forall n, m :: n in s.tasks && m in s.tasks && s.tasks[n].Asked? && s.tasks[m] == s.tasks[n] ==> n == m)
    && (forall p: nat :: p in s.ended ==> p < s.polls)
  }

  /** The answer kept for a node is what the node replied, emptied if its batch was found stale. */
  ghost predicate IsGenuine(replies: seq<Reading>, n: NodeId, a: Answer, stale: bool) {
    && a.serial < |replies| && a.reading.node == n
    && a.reading == if stale then replies[a.serial].(params := []) else replies[a.serial]
  }

  ghost predicate AreGenuine(replies: seq<Reading>, answers: Answers, stale: set<NodeId>) {
    forall n :: n in answers ==> IsGenuine(replies, n, answers[n], n in stale)
  }

  ghost predicate StaleAreBatched(answers: Answers, stale: set<NodeId>) {
    forall n :: n in stale ==> n in answers && answers[n].batched
  }

  ghost predicate KeptAreGenuine(s: State) {
    && |s.replies| == s.received
    && (forall n :: n in s.tasks && s.tasks[n].Answered? ==> IsGenuine(s.replies, n, s.tasks[n].answer, false))
    && (forall i :: 0 <= i < |s.retained| ==> AreGenuine(s.replies, s.retained[i].answers, {}))
    && (s.writing.Writing? ==>
          && AreGenuine(s.replies, s.writing.cohort.answers, s.writing.stale)
          && StaleAreBatched(s.writing.cohort.answers, s.writing.stale))
  }

  /** Every write is of what the nodes replied, but for the batches found stale, of which it writes nothing. */
  ghost predicate WritesAreGenuine(s: State) {
    forall i :: 0 <= i < |s.commits| ==> AreGenuine(s.replies, s.commits[i].cohort.answers, s.commits[i].stale)
  }

  /** A deleted user has no row again, so that no write meets it. */
  ghost predicate DeletedStayGone(s: State) {
    s.deleted !! s.users.Keys && s.deleted <= s.everUsed
  }

  /** The last write failed for good, or the last two failed. */
  ghost predicate MustStop(ends: seq<WriteEnd>) {
    && ends != [] && ends[|ends| - 1].NotWritten?
    && (!ends[|ends| - 1].retriable || (|ends| > 1 && ends[|ends| - 2].NotWritten?))
  }

  /**
   * A collection goes on exactly until a write fails for good, two in a row fail, or every
   * task is done.
   */
  ghost predicate StopsByRule(s: State) {
    s.stage == Collecting || s.stage == Settling ==>
      && (forall k :: 0 <= k < |s.ends| ==> !MustStop(s.ends[..k]))
      && (s.stage == Collecting ==> !MustStop(s.ends))
      && (s.stage == Settling && !MustStop(s.ends) ==> forall n :: n in s.tasks ==> s.tasks[n] == Done)
  }

  /** Once a collection has stopped no node is still to be polled, and before that none is given up. */
  ghost predicate StoppedPollsNobody(s: State) {
    && (s.stage == Settling ==> forall n :: n in s.tasks ==> s.tasks[n] != Waiting)
    && (s.stage == Collecting ==> forall n :: n in s.tasks ==> s.tasks[n] != Cancelled)
  }

  ghost predicate FailuresCounted(s: State) {
    s.stage == Collecting ==> s.failures == if s.ends != [] && s.ends[|s.ends| - 1].NotWritten? then 1 else 0
  }

  /** A tick in which no write failed leaves nothing retained. */
  ghost predicate CleanTicksLeaveNothing(s: State) {
    && s.failedBefore <= |s.failed|
    && (s.stage != Draining && s.failedBefore == |s.failed| ==> s.retained == [])
    && (s.stage == Settling && s.failedBefore == |s.failed| ==> forall n :: n in s.tasks ==> s.tasks[n] == Done)
  }

  /** While nodes are polled, nothing read in an earlier tick is still to be written. */
  ghost predicate EarlierReadsAreDone(s: State) {
    && s.firstRead <= s.received
    && (s.stage == Collecting || s.stage == Settling ==> forall l, serial :: Holds(s, l, serial) ==> s.firstRead <= serial)
  }

  /** Users that writes met are known ids, and their epochs have only grown since. */
  ghost predicate MetOk(s: State) {
    forall i, u :: 0 <= i < |s.commits| && u in s.commits[i].met ==>
      u in s.everUsed && (u in s.users ==> s.commits[i].met[u].epoch <= s.users[u].epoch)
  }

  /** Where the reads are, and what the writes and the counters are. */
  ghost predicate ReadsInv(s: State) {
    && StageOk(s) && SubmissionOk(s) && EpochsOk(s) && RetainedIsSole(s)
    && EveryReadIsPlaced(s) && WrittenAtMostOnce(s) && EveryWriteIsHonest(s)
    && MetOk(s) && CountersAreExact(s) && EveryFateIsJustified(s)
  }

  /** How a tick goes on. */
  ghost predicate TickInv(s: State) {
    && BeganOk(s) && EveryPollIsFollowed(s) && StopsByRule(s) && FailuresCounted(s) && EarlierReadsAreDone(s)
    && CleanTicksLeaveNothing(s) && StoppedPollsNobody(s) && KeptAreGenuine(s) && WritesAreGenuine(s) && DeletedStayGone(s)
  }

  ghost predicate Inv(s: State) {
    ReadsInv(s) && TickInv(s)
  }

  // --------------------------------------------------------------- moving answers

  ghost predicate IsFailure(step: Step) {
    step.FailCleanly? || step.FailInDoubt?
  }

  /** The place in s that an answer kept at l after the step was kept at. */
  ghost function Origin(s: State, step: Step, l: Place): Place {
    if step.PopRetained? then
      match l
      case InWriting(n) => InRetained(0, n)
      case InRetained(i, n) => InRetained(i + 1, n)
      case InTask(n) => InTask(n)
    else if step.TakeBatch? && l.InWriting? then
      InTask(l.n)
    else if IsFailure(step) && s.writing.Writing? && Keeps(s.writing.cohort, step.FailInDoubt?) && l.InRetained? then
      if l.i == 0 then InWriting(l.n) else InRetained(l.i - 1, l.n)
    else if step.FinishSettling? && l.InRetained? && l.i == |s.retained| then
      InTask(l.n)
    else
      l
  }

  ghost function Destination(s: State, step: Step, l: Place): Place {
    if step.PopRetained? then
      match l
      case InRetained(i, n) => if i == 0 then InWriting(n) else InRetained(i - 1, n)
      case _ => l
    else if step.TakeBatch? && l.InTask? && l.n in step.nodes then
      InWriting(l.n)
    else if IsFailure(step) && s.writing.Writing? && Keeps(s.writing.cohort, step.FailInDoubt?) && !l.InTask? then
      if l.InWriting? then InRetained(0, l.n) else InRetained(l.i + 1, l.n)
    else if step.FinishSettling? && l.InTask? then
      InRetained(|s.retained|, l.n)
    else
      l
  }

  /** The write under way ends with its answers no longer kept. */
  ghost predicate LetsGo(s: State, step: Step) {
    s.writing.Writing? && (step.Succeed? || (IsFailure(step) && !Keeps(s.writing.cohort, step.FailInDoubt?)))
  }

  /** What is kept at l after the step was kept before it, and was tried as often but for a write that failed now. */
  ghost predicate CameFrom(s: State, step: Step, l: Place, serial: nat)
    requires Enabled(s, step)
  {
    var t, o := Apply(s, step), Origin(s, step, l);
    Holds(t, l, serial) ==>
      || (&& Holds(s, o, serial) && Destination(s, step, o) == l && !(LetsGo(s, step) && o.InWriting?)
          && AttemptsAt(t, l) == AttemptsAt(s, o) + if IsFailure(step) && o.InWriting? then 1 else 0)
      || (step.Reply? && l == InTask(step.n) && serial == s.received)
  }

  /** What is kept at l goes on to be kept, unless the write under way lets it go. */
  ghost predicate GoesOn(s: State, step: Step, l: Place, serial: nat)
    requires Enabled(s, step)
  {
    Holds(s, l, serial) && !(LetsGo(s, step) && l.InWriting?) ==> Holds(Apply(s, step), Destination(s, step, l), serial)
  }

  lemma PoppedMoves(s: State, step: Step, l: Place, serial: nat)
    requires StageOk(s) && Enabled(s, step)
    requires step.PopRetained?
    ensures CameFrom(s, step, l, serial) && GoesOn(s, step, l, serial)
  {
  }

  lemma TakenMoves(s: State, step: Step, l: Place, serial: nat)
    requires StageOk(s) && Enabled(s, step)
    requires step.TakeBatch?
    ensures CameFrom(s, step, l, serial) && GoesOn(s, step, l, serial)
  {
  }

  lemma FailedShape(s: State, step: Step)
    requires StageOk(s) && Enabled(s, step) && IsFailure(step)
    ensures
      var t := Apply(s, step);
      && t.writing.NoWrite?
      && t.retained == AfterFailure(s.retained, s.writing.cohort, step.FailInDoubt?)
      && t.sole == s.sole && t.received == s.received && t.replies == s.replies && t.finished == s.finished && t.epochs == s.epochs
      && t.everUsed == s.everUsed
      && t.failed == s.failed + [Failure(s.writing.cohort, step.FailInDoubt?)]
      && t.givenUp == (if Keeps(s.writing.cohort, step.FailInDoubt?) then s.givenUp
                       else s.givenUp + SoleSerials(s.writing.cohort.answers))
      && (t.tasks == s.tasks || t.tasks == StopAsking(s.tasks))
      && (t.stage == Idle <==> s.stage == Draining)
      && t.stage != Draining
      && if step.FailInDoubt? && step.landed then
           t.users == Commits(s).users && t.commits == Commits(s).commits
         else
           t.users == s.users && t.commits == s.commits
  {
  }

  lemma FailedGoesOn(s: State, step: Step, l: Place, serial: nat)
    requires StageOk(s) && Enabled(s, step) && IsFailure(step)
    ensures GoesOn(s, step, l, serial)
  {
    FailedShape(s, step);
    var t, c := Apply(s, step), s.writing.cohort;
    match l
    case InTask(n) =>
      assert IsAt(t, l) <==> IsAt(s, l);
    case InWriting(n) =>
      if IsAt(s, l) && IsSoleCopy(At(s, l)) && Keeps(c, step.FailInDoubt?) {
        assert t.retained[0].answers == LegacyParams(c.answers);
      }
    case InRetained(i, n) =>
      if Keeps(c, step.FailInDoubt?) {
        assert t.retained == [Cohort(LegacyParams(c.answers), c.epochs, c.attempts + 1, c.began)] + s.retained;
      }
  }

  lemma FailedCameFrom(s: State, step: Step, l: Place, serial: nat)
    requires StageOk(s) && Enabled(s, step) && IsFailure(step)
    ensures CameFrom(s, step, l, serial)
  {
    FailedShape(s, step);
    var t, c := Apply(s, step), s.writing.cohort;
    match l
    case InTask(n) =>
      assert IsAt(t, l) <==> IsAt(s, l);
    case InWriting(n) =>
      assert !IsAt(t, l);
    case InRetained(i, n) =>
      if Keeps(c, step.FailInDoubt?) {
        assert t.retained == [Cohort(LegacyParams(c.answers), c.epochs, c.attempts + 1, c.began)] + s.retained;
      }
  }

  lemma SettledGoesOn(s: State, step: Step, l: Place, serial: nat)
    requires StageOk(s) && Enabled(s, step) && step.FinishSettling?
    ensures GoesOn(s, step, l, serial)
  {
    if l.InTask? && Holds(s, l, serial) {
      assert l.n in LegacyParams(AnswersOf(s.tasks, s.tasks.Keys));
    }
  }

  lemma SettledCameFrom(s: State, step: Step, l: Place, serial: nat)
    requires StageOk(s) && Enabled(s, step) && step.FinishSettling?
    ensures CameFrom(s, step, l, serial)
  {
  }

  lemma StaleMoves(s: State, step: Step, l: Place, serial: nat)
    requires StageOk(s) && Enabled(s, step)
    requires step.FindStale? || step.Prepare?
    ensures CameFrom(s, step, l, serial) && GoesOn(s, step, l, serial)
  {
  }

  lemma SucceededMoves(s: State, step: Step, l: Place, serial: nat)
    requires StageOk(s) && Enabled(s, step)
    requires step.Succeed?
    ensures CameFrom(s, step, l, serial) && GoesOn(s, step, l, serial)
  {
  }

  lemma PolledMoves(s: State, step: Step, l: Place, serial: nat)
    requires StageOk(s) && Enabled(s, step)
    requires step.Ask? || step.LoseReply? || step.StartCollection?
    ensures CameFrom(s, step, l, serial) && GoesOn(s, step, l, serial)
  {
  }

  lemma RepliedMoves(s: State, step: Step, l: Place, serial: nat)
    requires StageOk(s) && Enabled(s, step)
    requires step.Reply?
    ensures CameFrom(s, step, l, serial) && GoesOn(s, step, l, serial)
  {
  }

  /** Where nothing is moved, everything is kept where it was. */
  lemma SamePlaces(s: State, t: State, l: Place, serial: nat)
    requires t.retained == s.retained && t.writing == s.writing && t.tasks == s.tasks
    ensures Holds(t, l, serial) <==> Holds(s, l, serial)
    ensures IsAt(s, l) ==> IsAt(t, l) && AttemptsAt(t, l) == AttemptsAt(s, l)
  {
  }

  lemma ElsewhereMoves(s: State, step: Step, l: Place, serial: nat)
    requires StageOk(s) && Enabled(s, step)
    requires step.CreateUser? || step.DeleteUser? || step.ResetUser? || step.BeginTick? || step.EndTick? || step.EndCollection?
    ensures CameFrom(s, step, l, serial) && GoesOn(s, step, l, serial)
  {
    var t := Apply(s, step);
    assert t.retained == s.retained && t.writing == s.writing && t.tasks == s.tasks;
    SamePlaces(s, t, l, serial);
    assert Origin(s, step, l) == l && Destination(s, step, l) == l && !LetsGo(s, step);
  }

  lemma Moves(s: State, step: Step, l: Place, serial: nat)
    requires StageOk(s) && Enabled(s, step)
    ensures CameFrom(s, step, l, serial) && GoesOn(s, step, l, serial)
  {
    match step
    case PopRetained => PoppedMoves(s, step, l, serial);
    case TakeBatch(_) => TakenMoves(s, step, l, serial);
    case FailCleanly(_) =>
      FailedCameFrom(s, step, l, serial);
      FailedGoesOn(s, step, l, serial);
    case FailInDoubt(_, _) =>
      FailedCameFrom(s, step, l, serial);
      FailedGoesOn(s, step, l, serial);
    case FinishSettling =>
      SettledCameFrom(s, step, l, serial);
      SettledGoesOn(s, step, l, serial);
    case FindStale(_) => StaleMoves(s, step, l, serial);
    case Prepare(_) => StaleMoves(s, step, l, serial);
    case Succeed => SucceededMoves(s, step, l, serial);
    case Ask(_) => PolledMoves(s, step, l, serial);
    case Reply(_, _, _) => RepliedMoves(s, step, l, serial);
    case LoseReply(_) => PolledMoves(s, step, l, serial);
    case StartCollection(_) => PolledMoves(s, step, l, serial);
    case _ => ElsewhereMoves(s, step, l, serial);
  }

  // ------------------------------------------------------- every step keeps it

  lemma KeepsShape(s: State, step: Step)
    requires StageOk(s) && RetainedIsSole(s) && Enabled(s, step)
    ensures StageOk(Apply(s, step)) && RetainedIsSole(Apply(s, step))
  {
    var t := Apply(s, step);
    if IsFailure(step) {
      FailedShape(s, step);
    }
    forall i | 0 <= i < |t.retained|
      ensures IsRetainable(t.retained[i])
    {
      assert i < |s.retained| ==> IsRetainable(s.retained[i]);
      assert step.PopRetained? ==> IsRetainable(s.retained[i + 1]);
      assert IsFailure(step) && i > 0 ==> IsRetainable(s.retained[i - 1]);
    }
    assert step.PopRetained? ==> IsRetainable(s.retained[0]);
  }

  lemma KeepsSubmission(s: State, step: Step)
    requires StageOk(s) && SubmissionOk(s) && Enabled(s, step)
    ensures SubmissionOk(Apply(s, step))
  {
    var t := Apply(s, step);
    match step
    case Prepare(order) =>
      var c := s.writing.cohort;
      forall n | n in order
        ensures n in c.answers
      {
        assert n in (set m | m in order);
      }
      var usage := UsageOf(ReadingsIn(c.answers, order));
      assert t.writing.submission.deltas == Passing(usage, s.users, c.epochs);
    case FailCleanly(_) => FailedShape(s, step);
    case FailInDoubt(_, _) => FailedShape(s, step);
    case _ =>
  }

  /** Commits of a step: none, or the write under way. */
  lemma CommitsOf(s: State, step: Step)
    requires StageOk(s) && Enabled(s, step)
    ensures Apply(s, step).commits == s.commits
            || (s.writing.Writing? && s.writing.submission.Ready?
                && Apply(s, step).commits == Commits(s).commits
                && (step.Succeed? || step.FailInDoubt?))
  {
    if IsFailure(step) {
      FailedShape(s, step);
    }
  }

  /** The users billed are those with bytes who were not fenced when it was prepared and when it committed. */
  lemma BilledExactly(s: State, u: UserId)
    requires SubmissionOk(s) && s.writing.Writing? && s.writing.submission.Ready?
    ensures var c, sub := s.writing.cohort, s.writing.submission;
      u in Billed(s.users, c.epochs, sub.deltas) <==>
        && UserTotal(ReadingsIn(c.answers, sub.order), u) > 0
        && !IsFenced(sub.context, c.epochs, u)
        && !IsFenced(s.users, c.epochs, u)
  {
    var readings := ReadingsIn(s.writing.cohort.answers, s.writing.submission.order);
    if u !in AllUids(readings) {
      UserTotalAbsent(readings, u);
    }
  }

  lemma CommitIsHonest(s: State)
    requires EpochsOk(s) && SubmissionOk(s) && BeganOk(s)
    requires s.writing.Writing? && s.writing.submission.Ready?
    ensures IsHonest(Commits(s).commits[|s.commits|])
  {
    var w := Commits(s).commits[|s.commits|];
    forall u, n | u in w.billed && n in w.cohort.answers
      ensures EpochAt(w.cohort.answers[n].epochsThen, u) == w.met[u].epoch
    {
      assert Ordered(s, w.cohort.epochs, w.cohort.answers[n]);
    }
    forall u: UserId
      ensures u in w.billed <==>
                && UserTotal(ReadingsIn(w.cohort.answers, w.order), u) > 0
                && IsUntouched(w.cohort.began, w.context, u)
                && IsUntouched(w.cohort.began, w.met, u)
    {
      BilledExactly(s, u);
    }
  }

  lemma KeepsHonesty(s: State, step: Step)
    requires ReadsInv(s) && BeganOk(s) && Enabled(s, step)
    ensures EveryWriteIsHonest(Apply(s, step))
  {
    CommitsOf(s, step);
    if Apply(s, step).commits != s.commits {
      CommitIsHonest(s);
    }
  }

  // ------------------------------------------------------------- the counters

  /** What a step does to the users and the commits: a write bills, or users change by themselves. */
  lemma UsersOf(s: State, step: Step)
    requires StageOk(s) && Enabled(s, step)
    ensures
      var t := Apply(s, step);
      || (s.writing.Writing? && s.writing.submission.Ready? && t.users == Commits(s).users && t.commits == Commits(s).commits && t.everUsed == s.everUsed)
      || (t.users == s.users && t.commits == s.commits && t.everUsed == s.everUsed)
      || (t.commits == s.commits && (step.CreateUser? || step.DeleteUser? || step.ResetUser?))
  {
    if IsFailure(step) {
      FailedShape(s, step);
    }
  }

  lemma MetAfterWrite(s: State, t: State)
    requires MetOk(s) && EpochsOk(s) && s.writing.Writing? && s.writing.submission.Ready?
    requires t.users == Commits(s).users && t.commits == Commits(s).commits && t.everUsed == s.everUsed
    ensures MetOk(t)
  {
  }

  lemma MetAfterUsers(s: State, step: Step)
    requires MetOk(s) && EpochsOk(s) && Enabled(s, step) && (step.CreateUser? || step.DeleteUser? || step.ResetUser?)
    ensures MetOk(Apply(s, step))
  {
  }

  lemma KeepsMet(s: State, step: Step)
    requires StageOk(s) && MetOk(s) && EpochsOk(s) && Enabled(s, step)
    ensures MetOk(Apply(s, step))
  {
    var t := Apply(s, step);
    UsersOf(s, step);
    if step.CreateUser? || step.DeleteUser? || step.ResetUser? {
      MetAfterUsers(s, step);
    } else if t.commits != s.commits {
      MetAfterWrite(s, t);
    }
  }

  lemma BilledOneMore(commits: seq<Commit>, w: Commit, u: UserId, epoch: nat)
    ensures BilledAt(commits + [w], u, epoch) ==
            BilledAt(commits, u, epoch) + if u in w.billed && u in w.met && w.met[u].epoch == epoch then w.billed[u] else 0
  {
    assert (commits + [w])[..|commits|] == commits;
  }

  /** Nothing was billed at an epoch that no write has met. */
  lemma {:induction false} NothingBilledYet(commits: seq<Commit>, u: UserId, epoch: nat)
    requires forall i :: 0 <= i < |commits| && u in commits[i].met ==> commits[i].met[u].epoch < epoch
    ensures BilledAt(commits, u, epoch) == 0
  {
    if commits != [] {
      NothingBilledYet(commits[..|commits| - 1], u, epoch);
    }
  }

  lemma {:induction false} NothingBilledToNobody(commits: seq<Commit>, u: UserId, epoch: nat)
    requires forall i :: 0 <= i < |commits| ==> u !in commits[i].met
    ensures BilledAt(commits, u, epoch) == 0
  {
    if commits != [] {
      NothingBilledToNobody(commits[..|commits| - 1], u, epoch);
    }
  }

  lemma CountersAfterWrite(s: State, t: State)
    requires CountersAreExact(s) && s.writing.Writing? && s.writing.submission.Ready?
    requires t.users == Commits(s).users && t.commits == Commits(s).commits
    ensures CountersAreExact(t)
  {
    forall u | u in t.users
      ensures t.users[u].used == BilledAt(t.commits, u, t.users[u].epoch)
    {
      BilledOneMore(s.commits, t.commits[|s.commits|], u, t.users[u].epoch);
    }
  }

  lemma CountersAfterUsers(s: State, step: Step)
    requires MetOk(s) && EpochsOk(s) && CountersAreExact(s) && Enabled(s, step)
    requires step.CreateUser? || step.DeleteUser? || step.ResetUser?
    ensures CountersAreExact(Apply(s, step))
  {
    var t := Apply(s, step);
    forall u | u in t.users
      ensures t.users[u].used == BilledAt(t.commits, u, t.users[u].epoch)
    {
      if step.CreateUser? && u == step.u {
        NothingBilledToNobody(s.commits, u, 0);
      } else if step.ResetUser? && u == step.u {
        NothingBilledYet(s.commits, u, t.users[u].epoch);
      }
    }
  }

  lemma KeepsCounters(s: State, step: Step)
    requires StageOk(s) && MetOk(s) && EpochsOk(s) && CountersAreExact(s) && Enabled(s, step)
    ensures CountersAreExact(Apply(s, step))
  {
    var t := Apply(s, step);
    UsersOf(s, step);
    if step.CreateUser? || step.DeleteUser? || step.ResetUser? {
      CountersAfterUsers(s, step);
    } else if t.commits != s.commits {
      CountersAfterWrite(s, t);
    }
  }

  lemma WritingHolds(s: State, serial: nat)
    requires s.writing.Writing? && serial in SoleSerials(s.writing.cohort.answers)
    ensures exists n :: Holds(s, InWriting(n), serial)
  {
    var n :| n in s.writing.cohort.answers && IsSoleCopy(s.writing.cohort.answers[n])
             && s.writing.cohort.answers[n].serial == serial;
    assert Holds(s, InWriting(n), serial);
  }

  lemma KeepsWrittenOnce(s: State, step: Step)
    requires ReadsInv(s) && Enabled(s, step)
    ensures WrittenAtMostOnce(Apply(s, step))
  {
    var t := Apply(s, step);
    CommitsOf(s, step);
    forall serial: nat, i: nat, j: nat | CommittedIn(t.commits, i, serial) && CommittedIn(t.commits, j, serial)
      ensures i == j
    {
      if i < |s.commits| && j < |s.commits| {
        assert CommittedIn(s.commits, i, serial) && CommittedIn(s.commits, j, serial);
      } else if i != j {
        var earlier := if i < j then i else j;
        assert CommittedIn(s.commits, earlier, serial);
        assert IsCommitted(s.commits, serial);
        WritingHolds(s, serial);
        assert false;
      }
    }
  }

  /** What a step adds to the finished and given-up reads are sole copies of the write under way. */
  lemma ResolvedBy(s: State, step: Step)
    requires StageOk(s) && Enabled(s, step)
    ensures
      var t := Apply(s, step);
      var own := if LetsGo(s, step) then SoleSerials(s.writing.cohort.answers) else {};
      && t.finished == (if step.Succeed? then s.finished + own else s.finished)
      && t.givenUp == (if step.Succeed? then s.givenUp else s.givenUp + own)
      && s.sole <= t.sole <= s.sole + {s.received}
      && (t.sole != s.sole ==> step.Reply?)
      && (t.commits != s.commits ==> LetsGo(s, step))
  {
    if IsFailure(step) {
      FailedShape(s, step);
      assert !LetsGo(s, step) ==> Keeps(s.writing.cohort, step.FailInDoubt?);
    }
  }

  lemma IsCommittedAfter(s: State, step: Step, serial: nat)
    requires StageOk(s) && Enabled(s, step)
    ensures IsCommitted(Apply(s, step).commits, serial) ==>
              IsCommitted(s.commits, serial) || (LetsGo(s, step) && serial in SoleSerials(s.writing.cohort.answers))
  {
    var t := Apply(s, step);
    CommitsOf(s, step);
    ResolvedBy(s, step);
    if i: nat :| CommittedIn(t.commits, i, serial) {
      if i < |s.commits| {
        assert CommittedIn(s.commits, i, serial);
      }
    }
  }

  lemma KeepsPlaced(s: State, step: Step)
    requires ReadsInv(s) && Enabled(s, step)
    ensures EveryReadIsPlaced(Apply(s, step))
  {
    var t := Apply(s, step);
    ResolvedBy(s, step);
    forall serial
      ensures IsCommitted(t.commits, serial) ==> serial in t.finished || serial in t.givenUp
    {
      IsCommittedAfter(s, step, serial);
    }
    forall serial, l | Holds(t, l, serial)
      ensures serial in t.sole && serial !in t.finished && serial !in t.givenUp && !IsCommitted(t.commits, serial)
    {
      KeptIsUnresolved(s, step, l, serial);
    }
    forall serial, l, m | Holds(t, l, serial) && Holds(t, m, serial)
      ensures l == m
    {
      Moves(s, step, l, serial);
      Moves(s, step, m, serial);
      assert s.received !in s.sole;
    }
    forall serial | serial in t.sole
      ensures IsHeld(t, serial) || serial in t.finished || serial in t.givenUp
    {
      KeepsHeld(s, step, serial);
    }
    if LetsGo(s, step) {
      forall serial | serial in SoleSerials(s.writing.cohort.answers)
        ensures serial in s.sole && serial !in s.finished && serial !in s.givenUp
      {
        WritingHolds(s, serial);
      }
    }
  }

  lemma KeptIsUnresolved(s: State, step: Step, l: Place, serial: nat)
    requires ReadsInv(s) && Enabled(s, step) && Holds(Apply(s, step), l, serial)
    ensures
      var t := Apply(s, step);
      serial in t.sole && serial !in t.finished && serial !in t.givenUp && !IsCommitted(t.commits, serial)
  {
    var t := Apply(s, step);
    Moves(s, step, l, serial);
    ResolvedBy(s, step);
    IsCommittedAfter(s, step, serial);
    var o := Origin(s, step, l);
    if Holds(s, o, serial) {
      if LetsGo(s, step) && serial in SoleSerials(s.writing.cohort.answers) {
        WritingHolds(s, serial);
        assert false;
      }
    } else {
      assert serial == s.received && s.received !in s.sole;
      if serial in s.finished || serial in s.givenUp || IsCommitted(s.commits, serial) {
        ResolvedWasReceived(s, serial);
        assert false;
      }
    }
  }

  lemma ResolvedWasReceived(s: State, serial: nat)
    requires ReadsInv(s) && (serial in s.finished || serial in s.givenUp || IsCommitted(s.commits, serial))
    ensures serial < s.received
  {
  }

  lemma KeepsHeld(s: State, step: Step, serial: nat)
    requires ReadsInv(s) && Enabled(s, step) && serial in Apply(s, step).sole
    ensures
      var t := Apply(s, step);
      IsHeld(t, serial) || serial in t.finished || serial in t.givenUp
  {
    var t := Apply(s, step);
    ResolvedBy(s, step);
    if serial !in s.sole {
      assert Holds(t, InTask(step.n), serial);
    } else if IsHeld(s, serial) {
      var l :| Holds(s, l, serial);
      Moves(s, step, l, serial);
      if LetsGo(s, step) && l.InWriting? {
        assert serial in SoleSerials(s.writing.cohort.answers);
      } else {
        assert Holds(t, Destination(s, step, l), serial);
      }
    }
  }

  // ------------------------------------------------------------- the fates

  lemma FailedOf(s: State, step: Step)
    requires StageOk(s) && Enabled(s, step)
    ensures Apply(s, step).failed ==
            if IsFailure(step) then s.failed + [Failure(s.writing.cohort, step.FailInDoubt?)] else s.failed
  {
    if IsFailure(step) {
      FailedShape(s, step);
    }
  }

  /** One more failed write counts for the sole copies in it. */
  lemma OneMoreFailure(failed: seq<Failure>, f: Failure, serial: nat)
    ensures
      var more, own := failed + [f], serial in SoleSerials(f.cohort.answers);
      && FailedWrites(more, serial) == FailedWrites(failed, serial) + (if own then 1 else 0)
      && (IsInDoubt(more, serial) <==> IsInDoubt(failed, serial) || (own && f.inDoubt))
  {
    var more := failed + [f];
    assert more[..|failed|] == failed && more[|failed|] == f;
    if i :| 0 <= i < |failed| && failed[i].inDoubt && serial in SoleSerials(failed[i].cohort.answers) {
      assert more[i] == failed[i];
    }
    if i :| 0 <= i < |more| && more[i].inDoubt && serial in SoleSerials(more[i].cohort.answers) {
      assert i < |failed| ==> failed[i] == more[i];
    }
  }

  lemma CommittedStays(s: State, step: Step, serial: nat)
    requires StageOk(s) && Enabled(s, step) && IsCommitted(s.commits, serial)
    ensures IsCommitted(Apply(s, step).commits, serial)
  {
    CommitsOf(s, step);
    var i: nat :| CommittedIn(s.commits, i, serial);
    assert CommittedIn(Apply(s, step).commits, i, serial);
  }

  /** A sole copy of the write that fails: its tenth failure, or a commit in doubt, gives it up. */
  lemma OwnFateAfterFailure(s: State, step: Step, serial: nat)
    requires ReadsInv(s) && Enabled(s, step) && IsFailure(step) && serial in SoleSerials(s.writing.cohort.answers)
    ensures IsJustified(Apply(s, step), serial)
  {
    var t := Apply(s, step);
    FailedShape(s, step);
    OneMoreFailure(s.failed, t.failed[|s.failed|], serial);
    WritingHolds(s, serial);
    var n :| Holds(s, InWriting(n), serial);
    assert IsJustified(s, serial);
    assert n in LegacyParams(s.writing.cohort.answers);
    forall l | Holds(t, l, serial)
      ensures FailedWrites(t.failed, serial) == AttemptsAt(t, l) && !IsInDoubt(t.failed, serial)
    {
      Moves(s, step, l, serial);
    }
  }

  lemma OtherFateAfterFailure(s: State, step: Step, serial: nat)
    requires ReadsInv(s) && Enabled(s, step) && IsFailure(step) && serial !in SoleSerials(s.writing.cohort.answers)
    ensures IsJustified(Apply(s, step), serial)
  {
    var t := Apply(s, step);
    FailedShape(s, step);
    OneMoreFailure(s.failed, t.failed[|s.failed|], serial);
    assert IsJustified(s, serial);
    if serial in s.finished {
      CommittedStays(s, step, serial);
    }
    forall l | Holds(t, l, serial)
      ensures FailedWrites(t.failed, serial) == AttemptsAt(t, l) && !IsInDoubt(t.failed, serial)
    {
      Moves(s, step, l, serial);
    }
  }

  lemma FateAfterSuccess(s: State, step: Step, serial: nat)
    requires ReadsInv(s) && Enabled(s, step) && step.Succeed?
    ensures IsJustified(Apply(s, step), serial)
  {
    var t := Apply(s, step);
    assert IsJustified(s, serial);
    if serial in s.finished {
      CommittedStays(s, step, serial);
    } else if serial in SoleSerials(s.writing.cohort.answers) {
      assert CommittedIn(t.commits, |s.commits|, serial);
      WritingHolds(s, serial);
    }
    forall l | Holds(t, l, serial)
      ensures FailedWrites(t.failed, serial) == AttemptsAt(t, l) && !IsInDoubt(t.failed, serial)
    {
      Moves(s, step, l, serial);
    }
  }

  lemma FateAfterOther(s: State, step: Step, serial: nat)
    requires ReadsInv(s) && Enabled(s, step) && !IsFailure(step) && !step.Succeed?
    ensures IsJustified(Apply(s, step), serial)
  {
    var t := Apply(s, step);
    FailedOf(s, step);
    ResolvedBy(s, step);
    assert IsJustified(s, serial);
    assert IsJustified(s, s.received);
    if serial in s.finished {
      CommittedStays(s, step, serial);
    }
    forall l | Holds(t, l, serial)
      ensures FailedWrites(t.failed, serial) == AttemptsAt(t, l) && !IsInDoubt(t.failed, serial)
    {
      Moves(s, step, l, serial);
    }
  }

  lemma KeepsFates(s: State, step: Step)
    requires ReadsInv(s) && Enabled(s, step)
    ensures EveryFateIsJustified(Apply(s, step))
  {
    forall serial: nat
      ensures IsJustified(Apply(s, step), serial)
    {
      if step.Succeed? {
        FateAfterSuccess(s, step, serial);
      } else if !IsFailure(step) {
        FateAfterOther(s, step, serial);
      } else if serial in SoleSerials(s.writing.cohort.answers) {
        OwnFateAfterFailure(s, step, serial);
      } else {
        OtherFateAfterFailure(s, step, serial);
      }
    }
  }

  lemma KeepsEpochs(s: State, step: Step)
    requires StageOk(s) && EpochsOk(s) && Enabled(s, step)
    ensures EpochsOk(Apply(s, step))
  {
    match step
    case CreateUser(_, _) => UsersKeepEpochs(s, step);
    case DeleteUser(_) => UsersKeepEpochs(s, step);
    case ResetUser(_) => UsersKeepEpochs(s, step);
    case FailCleanly(_) => FailureKeepsEpochs(s, step);
    case FailInDoubt(_, _) => FailureKeepsEpochs(s, step);
    case FinishSettling => SettlingKeepsEpochs(s, step);
    case _ =>
      if IsWriteStep(step) {
        WriteKeepsEpochs(s, step);
      } else {
        TickKeepsEpochs(s, step);
      }
  }

  /** Answers stay ordered when the users only lose rows, gain unused ids, or move to later epochs. */
  lemma StaysOrdered(s: State, t: State, before: Epochs, a: Answer)
    requires Ordered(s, before, a) && s.everUsed <= t.everUsed
    requires forall u :: u in t.users && u in s.users ==> s.users[u].epoch <= t.users[u].epoch
    requires forall u :: u in t.users && u !in s.users ==> u !in s.everUsed
    ensures Ordered(t, before, a)
  {
  }

  lemma CohortStaysOrdered(s: State, t: State, c: Cohort)
    requires CohortOrdered(s, c) && s.everUsed <= t.everUsed
    requires forall u :: u in t.users && u in s.users ==> s.users[u].epoch <= t.users[u].epoch
    requires forall u :: u in t.users && u !in s.users ==> u !in s.everUsed
    ensures CohortOrdered(t, c)
  {
    forall n | n in c.answers
      ensures Ordered(t, c.epochs, c.answers[n])
    {
      StaysOrdered(s, t, c.epochs, c.answers[n]);
    }
  }

  lemma UsersKeepEpochs(s: State, step: Step)
    requires EpochsOk(s) && Enabled(s, step) && (step.CreateUser? || step.DeleteUser? || step.ResetUser?)
    ensures EpochsOk(Apply(s, step))
  {
    var t := Apply(s, step);
    forall i | 0 <= i < |t.retained|
      ensures CohortOrdered(t, t.retained[i])
    {
      CohortStaysOrdered(s, t, s.retained[i]);
    }
    if t.writing.Writing? {
      CohortStaysOrdered(s, t, s.writing.cohort);
    }
    forall n | n in t.tasks && t.tasks[n].Answered?
      ensures Ordered(t, t.epochs, t.tasks[n].answer)
    {
      StaysOrdered(s, t, s.epochs, s.tasks[n].answer);
    }
  }

  /** A failed write changes no epoch, whether it landed or not. */
  lemma FailedUsers(s: State, step: Step)
    requires StageOk(s) && Enabled(s, step) && IsFailure(step)
    ensures SameEpochs(s, Apply(s, step))
  {
    FailedShape(s, step);
  }

  ghost predicate SameEpochs(s: State, t: State) {
    t.everUsed == s.everUsed && t.users.Keys == s.users.Keys && forall u :: u in s.users ==> t.users[u].epoch == s.users[u].epoch
  }

  lemma FailureKeepsOrder(s: State, t: State, inDoubt: bool)
    requires EpochsOk(s) && s.writing.Writing? && SameEpochs(s, t)
    requires t.retained == AfterFailure(s.retained, s.writing.cohort, inDoubt)
    ensures forall i :: 0 <= i < |t.retained| ==> CohortOrdered(t, t.retained[i])
  {
    forall i | 0 <= i < |t.retained|
      ensures CohortOrdered(t, t.retained[i])
    {
      var was := if !Keeps(s.writing.cohort, inDoubt) then s.retained[i]
                 else if i == 0 then s.writing.cohort else s.retained[i - 1];
      CohortStaysOrdered(s, t, was);
    }
  }

  lemma FailureKeepsEpochs(s: State, step: Step)
    requires StageOk(s) && EpochsOk(s) && Enabled(s, step) && IsFailure(step)
    ensures EpochsOk(Apply(s, step))
  {
    FailedShape(s, step);
    FailedUsers(s, step);
    var t := Apply(s, step);
    FailureKeepsOrder(s, t, step.FailInDoubt?);
    forall n | n in t.tasks && t.tasks[n].Answered?
      ensures Ordered(t, t.epochs, t.tasks[n].answer)
    {
      StaysOrdered(s, t, s.epochs, s.tasks[n].answer);
    }
  }

  lemma SettlingKeepsEpochs(s: State, step: Step)
    requires StageOk(s) && EpochsOk(s) && Enabled(s, step) && step.FinishSettling?
    ensures EpochsOk(Apply(s, step))
  {
    var t := Apply(s, step);
    forall i | 0 <= i < |t.retained|
      ensures CohortOrdered(t, t.retained[i])
    {
      if i < |s.retained| {
        CohortStaysOrdered(s, t, s.retained[i]);
      }
    }
  }

  ghost predicate IsWriteStep(step: Step) {
    step.PopRetained? || step.TakeBatch? || step.Prepare? || step.FindStale? || step.Succeed?
  }

  lemma WriteKeepsEpochs(s: State, step: Step)
    requires StageOk(s) && EpochsOk(s) && Enabled(s, step) && IsWriteStep(step)
    ensures EpochsOk(Apply(s, step))
  {
    var t := Apply(s, step);
    forall i | 0 <= i < |t.retained|
      ensures CohortOrdered(t, t.retained[i])
    {
      CohortStaysOrdered(s, t, if step.PopRetained? then s.retained[i + 1] else s.retained[i]);
    }
    if t.writing.Writing? {
      if step.PopRetained? {
        CohortStaysOrdered(s, t, s.retained[0]);
      } else {
        forall n | n in t.writing.cohort.answers
          ensures Ordered(t, t.writing.cohort.epochs, t.writing.cohort.answers[n])
        {
          assert if step.TakeBatch? then Ordered(s, s.epochs, s.tasks[n].answer)
                 else Ordered(s, s.writing.cohort.epochs, s.writing.cohort.answers[n]);
        }
      }
    }
    forall n | n in t.tasks && t.tasks[n].Answered?
      ensures Ordered(t, t.epochs, t.tasks[n].answer)
    {
      StaysOrdered(s, t, s.epochs, s.tasks[n].answer);
    }
  }

  lemma TickKeepsEpochs(s: State, step: Step)
    requires StageOk(s) && EpochsOk(s) && Enabled(s, step) && !IsWriteStep(step)
    requires !(step.CreateUser? || step.DeleteUser? || step.ResetUser? || IsFailure(step) || step.FinishSettling?)
    ensures EpochsOk(Apply(s, step))
  {
    var t := Apply(s, step);
    forall i | 0 <= i < |t.retained|
      ensures CohortOrdered(t, t.retained[i])
    {
      CohortStaysOrdered(s, t, s.retained[i]);
    }
    if t.writing.Writing? {
      CohortStaysOrdered(s, t, s.writing.cohort);
    }
    forall n | n in t.tasks && t.tasks[n].Answered?
      ensures Ordered(t, t.epochs, t.tasks[n].answer)
    {
      if !(step.Reply? && n == step.n) {
        StaysOrdered(s, t, s.epochs, s.tasks[n].answer);
      }
    }
  }

  // ------------------------------------------------------- how a tick goes on

  lemma KeepsBegan(s: State, step: Step)
    requires StageOk(s) && BeganOk(s) && Enabled(s, step)
    ensures BeganOk(Apply(s, step))
  {
    if IsFailure(step) {
      FailedShape(s, step);
    }
  }

  /** Where no poll is issued or ends, the same tasks wait for them. */
  lemma SamePolls(s: State, t: State)
    requires EveryPollIsFollowed(s) && t.polls == s.polls && t.ended == s.ended
    requires forall n :: n in t.tasks && t.tasks[n].Asked? ==> n in s.tasks && s.tasks[n] == t.tasks[n]
    requires forall n :: n in s.tasks && s.tasks[n].Asked? ==> n in t.tasks && t.tasks[n] == s.tasks[n]
    ensures EveryPollIsFollowed(t)
  {
    forall p: nat | p < t.polls && p !in t.ended
      ensures exists n :: n in t.tasks && t.tasks[n] == Asked(p)
    {
      var n :| n in s.tasks && s.tasks[n] == Asked(p);
      assert n in t.tasks && t.tasks[n] == Asked(p);
    }
  }

  lemma AskKeepsPolls(s: State, step: Step)
    requires EveryPollIsFollowed(s) && Enabled(s, step) && step.Ask?
    ensures EveryPollIsFollowed(Apply(s, step))
  {
    var t := Apply(s, step);
    forall p: nat | p < t.polls && p !in t.ended
      ensures exists n :: n in t.tasks && t.tasks[n] == Asked(p)
    {
      if p < s.polls {
        var n :| n in s.tasks && s.tasks[n] == Asked(p);
        assert n in t.tasks && t.tasks[n] == Asked(p);
      } else {
        assert t.tasks[step.n] == Asked(p);
      }
    }
  }

  lemma EndKeepsPolls(s: State, step: Step)
    requires EveryPollIsFollowed(s) && Enabled(s, step) && (step.Reply? || step.LoseReply?)
    ensures EveryPollIsFollowed(Apply(s, step))
  {
    var t := Apply(s, step);
    forall p: nat | p < t.polls && p !in t.ended
      ensures exists n :: n in t.tasks && t.tasks[n] == Asked(p)
    {
      var n :| n in s.tasks && s.tasks[n] == Asked(p);
      assert n in t.tasks && t.tasks[n] == Asked(p);
    }
  }

  lemma KeepsPolls(s: State, step: Step)
    requires StageOk(s) && EveryPollIsFollowed(s) && Enabled(s, step)
    ensures EveryPollIsFollowed(Apply(s, step))
  {
    if step.Ask? {
      AskKeepsPolls(s, step);
    } else if step.Reply? || step.LoseReply? {
      EndKeepsPolls(s, step);
    } else {
      SamePolls(s, Apply(s, step));
    }
  }

  lemma KeepsGenuine(s: State, step: Step)
    requires StageOk(s) && KeptAreGenuine(s) && Enabled(s, step)
    ensures KeptAreGenuine(Apply(s, step))
  {
    match step
    case FailCleanly(_) => FailureKeepsGenuine(s, step);
    case FailInDoubt(_, _) => FailureKeepsGenuine(s, step);
    case Reply(_, _, _) => ReplyKeepsGenuine(s, step);
    case FinishSettling => SettlingKeepsGenuine(s, step);
    case _ =>
      if IsWriteStep(step) {
        WriteKeepsGenuine(s, step);
      } else {
        OthersKeepGenuine(s, step);
      }
  }

  lemma WriteKeepsGenuine(s: State, step: Step)
    requires StageOk(s) && KeptAreGenuine(s) && Enabled(s, step) && IsWriteStep(step)
    ensures KeptAreGenuine(Apply(s, step))
  {
  }

  lemma SettlingKeepsGenuine(s: State, step: Step)
    requires StageOk(s) && KeptAreGenuine(s) && Enabled(s, step) && step.FinishSettling?
    ensures KeptAreGenuine(Apply(s, step))
  {
    var t := Apply(s, step);
    forall i | 0 <= i < |t.retained|
      ensures AreGenuine(t.replies, t.retained[i].answers, {})
    {
      assert i < |s.retained| ==> t.retained[i] == s.retained[i];
    }
  }

  lemma OthersKeepGenuine(s: State, step: Step)
    requires StageOk(s) && KeptAreGenuine(s) && Enabled(s, step) && !IsFailure(step) && !step.Reply? && !step.FinishSettling? && !IsWriteStep(step)
    ensures KeptAreGenuine(Apply(s, step))
  {
  }

  lemma FailureKeepsGenuine(s: State, step: Step)
    requires StageOk(s) && KeptAreGenuine(s) && Enabled(s, step) && IsFailure(step)
    ensures KeptAreGenuine(Apply(s, step))
  {
    FailedShape(s, step);
    RetainedStayGenuine(s.replies, s.retained, s.writing.cohort, s.writing.stale, step.FailInDoubt?);
  }

  lemma RetainedStayGenuine(replies: seq<Reading>, retained: seq<Cohort>, c: Cohort, stale: set<NodeId>, inDoubt: bool)
    requires forall i :: 0 <= i < |retained| ==> AreGenuine(replies, retained[i].answers, {})
    requires AreGenuine(replies, c.answers, stale) && StaleAreBatched(c.answers, stale)
    ensures var after := AfterFailure(retained, c, inDoubt);
      forall i :: 0 <= i < |after| ==> AreGenuine(replies, after[i].answers, {})
  {
    assert AreGenuine(replies, LegacyParams(c.answers), {});
  }

  lemma ReplyKeepsGenuine(s: State, step: Step)
    requires StageOk(s) && KeptAreGenuine(s) && Enabled(s, step) && step.Reply?
    ensures KeptAreGenuine(Apply(s, step))
  {
    var t := Apply(s, step);
    forall i | 0 <= i < |t.retained|
      ensures AreGenuine(t.replies, t.retained[i].answers, {})
    {
      assert AreGenuine(s.replies, s.retained[i].answers, {});
    }
  }

  lemma KeepsWritesGenuine(s: State, step: Step)
    requires StageOk(s) && KeptAreGenuine(s) && WritesAreGenuine(s) && Enabled(s, step)
    ensures WritesAreGenuine(Apply(s, step))
  {
    var t := Apply(s, step);
    CommitsOf(s, step);
    RepliesGrow(s, step);
    forall i | 0 <= i < |t.commits|
      ensures AreGenuine(t.replies, t.commits[i].cohort.answers, t.commits[i].stale)
    {
      if i < |s.commits| {
        assert AreGenuine(s.replies, s.commits[i].cohort.answers, s.commits[i].stale);
      }
    }
  }

  lemma RepliesGrow(s: State, step: Step)
    requires Enabled(s, step)
    ensures s.replies <= Apply(s, step).replies
  {
  }

  lemma DeletedOf(s: State, step: Step)
    requires Enabled(s, step)
    ensures Apply(s, step).deleted == if step.DeleteUser? then s.deleted + {step.u} else s.deleted
    ensures s.everUsed <= Apply(s, step).everUsed
  {
  }

  lemma KeepsDeleted(s: State, step: Step)
    requires StageOk(s) && EpochsOk(s) && DeletedStayGone(s) && Enabled(s, step)
    ensures DeletedStayGone(Apply(s, step))
  {
    UsersOf(s, step);
    DeletedOf(s, step);
    var t := Apply(s, step);
    assert step.CreateUser? ==> t.users.Keys == s.users.Keys + {step.u};
    assert step.DeleteUser? ==> t.users.Keys == s.users.Keys - {step.u};
    assert !step.CreateUser? && !step.DeleteUser? ==> t.users.Keys == s.users.Keys;
  }

  /** One more write of the collection that did not have to stop. */
  lemma OneMoreEnd(ends: seq<WriteEnd>, more: seq<WriteEnd>)
    requires |more| == |ends| + 1 && more[..|ends|] == ends && !MustStop(ends)
    requires forall k :: 0 <= k < |ends| ==> !MustStop(ends[..k])
    ensures forall k :: 0 <= k < |more| ==> !MustStop(more[..k])
  {
    forall k | 0 <= k < |more|
      ensures !MustStop(more[..k])
    {
      assert more[..k] == if k < |ends| then ends[..k] else ends;
    }
  }

  /** What a failure makes of the stage: a tick that drains ends, a collection stops if it must. */
  ghost predicate IsStageAfterFailure(s: State, t: State, retriable: bool) {
    && t.ends == s.ends + [NotWritten(retriable)]
    && (s.stage == Draining ==> t.stage == Idle)
    && (s.stage == Collecting ==>
          && t.stage == (if MustStop(t.ends) then Settling else Collecting)
          && t.tasks == (if MustStop(t.ends) then StopAsking(s.tasks) else s.tasks)
          && t.failures == s.failures + 1)
  }

  lemma FailsStage(s: State, inDoubt: bool, retriable: bool)
    requires s.writing.Writing? && FailuresCounted(s)
    ensures IsStageAfterFailure(s, Fails(s, inDoubt, retriable), retriable)
  {
  }

  lemma FailedStage(s: State, step: Step)
    requires FailuresCounted(s) && Enabled(s, step) && IsFailure(step)
    ensures IsStageAfterFailure(s, Apply(s, step), step.retriable)
  {
    if step.FailInDoubt? && step.landed {
      var landed := Commits(s);
      assert landed.stage == s.stage && landed.ends == s.ends && landed.tasks == s.tasks && landed.failures == s.failures;
      FailsStage(landed, true, step.retriable);
    } else {
      FailsStage(s, step.FailInDoubt?, step.retriable);
    }
  }

  lemma FailureKeepsStopRule(s: State, step: Step)
    requires StageOk(s) && StopsByRule(s) && FailuresCounted(s) && StoppedPollsNobody(s) && Enabled(s, step) && IsFailure(step)
    ensures var t := Apply(s, step); StopsByRule(t) && FailuresCounted(t) && StoppedPollsNobody(t)
  {
    FailedStage(s, step);
    FailedShape(s, step);
    if s.stage == Collecting {
      OneMoreEnd(s.ends, Apply(s, step).ends);
    }
  }

  lemma SuccessKeepsStopRule(s: State, step: Step)
    requires StageOk(s) && StopsByRule(s) && FailuresCounted(s) && StoppedPollsNobody(s) && Enabled(s, step) && step.Succeed?
    ensures var t := Apply(s, step); StopsByRule(t) && FailuresCounted(t) && StoppedPollsNobody(t)
  {
    if s.stage == Collecting {
      OneMoreEnd(s.ends, Apply(s, step).ends);
    }
  }

  lemma OthersKeepStopRule(s: State, step: Step)
    requires StageOk(s) && StopsByRule(s) && FailuresCounted(s) && StoppedPollsNobody(s) && Enabled(s, step)
    requires !IsFailure(step) && !step.Succeed?
    ensures var t := Apply(s, step); StopsByRule(t) && FailuresCounted(t) && StoppedPollsNobody(t)
  {
  }

  lemma KeepsStopRule(s: State, step: Step)
    requires StageOk(s) && StopsByRule(s) && FailuresCounted(s) && StoppedPollsNobody(s) && Enabled(s, step)
    ensures var t := Apply(s, step); StopsByRule(t) && FailuresCounted(t) && StoppedPollsNobody(t)
  {
    if IsFailure(step) {
      FailureKeepsStopRule(s, step);
    } else if step.Succeed? {
      SuccessKeepsStopRule(s, step);
    } else {
      OthersKeepStopRule(s, step);
    }
  }

  lemma KeepsCleanTicks(s: State, step: Step)
    requires StageOk(s) && CleanTicksLeaveNothing(s) && Enabled(s, step)
    ensures CleanTicksLeaveNothing(Apply(s, step))
  {
    FailedOf(s, step);
    if step.FinishSettling? && s.failedBefore == |s.failed| {
      assert AnswersOf(s.tasks, s.tasks.Keys) == map[];
    }
  }

  lemma CollectionOf(s: State, step: Step)
    requires StageOk(s) && Enabled(s, step)
    ensures
      var t := Apply(s, step);
      && t.firstRead == (if step.StartCollection? then s.received else s.firstRead)
      && s.received <= t.received
      && (t.stage == Collecting || t.stage == Settling ==> step.StartCollection? || s.stage == Collecting || s.stage == Settling)
  {
  }

  lemma KeepsEarlierReads(s: State, step: Step)
    requires StageOk(s) && EarlierReadsAreDone(s) && Enabled(s, step)
    ensures EarlierReadsAreDone(Apply(s, step))
  {
    var t := Apply(s, step);
    CollectionOf(s, step);
    if t.stage == Collecting || t.stage == Settling {
      forall l, serial | Holds(t, l, serial)
        ensures t.firstRead <= serial
      {
        Moves(s, step, l, serial);
      }
    }
  }

  lemma StepKeepsInv(s: State, step: Step)
    requires Inv(s) && Enabled(s, step)
    ensures Inv(Apply(s, step))
  {
    KeepsShape(s, step);
    KeepsSubmission(s, step);
    KeepsEpochs(s, step);
    KeepsPlaced(s, step);
    KeepsWrittenOnce(s, step);
    KeepsHonesty(s, step);
    KeepsMet(s, step);
    KeepsCounters(s, step);
    KeepsFates(s, step);
    KeepsBegan(s, step);
    KeepsPolls(s, step);
    KeepsStopRule(s, step);
    KeepsGenuine(s, step);
    KeepsWritesGenuine(s, step);
    KeepsDeleted(s, step);
    KeepsCleanTicks(s, step);
    KeepsEarlierReads(s, step);
  }

  lemma {:induction false} RunKeepsInv(s: State, steps: seq<Step>, t: State)
    requires Inv(s) && Runs(s, steps, t)
    ensures Inv(t)
    decreases |steps|
  {
    if steps != [] {
      StepKeepsInv(s, steps[0]);
      RunKeepsInv(Apply(s, steps[0]), steps[1..], t);
    }
  }

  lemma StartIsGood()
    ensures Inv(Initial)
  {
  }

  lemma EveryRunIsGood(steps: seq<Step>, t: State)
    requires Runs(Initial, steps, t)
    ensures Inv(t)
  {
    StartIsGood();
    RunKeepsInv(Initial, steps, t);
  }

  /**
   * In every run, whatever mix of success, clean failure, commit in doubt, resets and lost
   * replies: no read is written twice; every read is kept in one place, finished with by the
   * write that holds it, or given up for a commit in doubt or its tenth failure; every write
   * bills all bytes of its cohort but those of users gone or reset since its tick began; each
   * user's counter is exactly what was billed since the user's last reset; every poll is followed
   * to its end; a collection stops by the rule, and it polls nobody before what earlier ticks read
   * is dealt with; a tick in which no write failed leaves nothing retained; every write is of
   * what the nodes replied, less the batches that were billed before; and no write bills a
   * user that was deleted.
   */
  lemma EveryRunIsSafe(steps: seq<Step>, t: State)
    requires Runs(Initial, steps, t)
    ensures WrittenAtMostOnce(t) && EveryReadIsPlaced(t) && RetainedIsSole(t) && EveryWriteIsHonest(t)
    ensures EveryFateIsJustified(t) && CountersAreExact(t)
    ensures EveryPollIsFollowed(t) && StopsByRule(t) && EarlierReadsAreDone(t)
    ensures StoppedPollsNobody(t) && CleanTicksLeaveNothing(t) && WritesAreGenuine(t) && DeletedStayGone(t)
  {
    EveryRunIsGood(steps, t);
  }

  /** A read is given up exactly when a write of it is in doubt or ten writes of it failed. */
  lemma GivenUpExactlyWhen(steps: seq<Step>, t: State, serial: nat)
    requires Runs(Initial, steps, t) && serial in t.sole
    ensures serial in t.givenUp <==> IsInDoubt(t.failed, serial) || FailedWrites(t.failed, serial) == MAX_ATTEMPTS
  {
    EveryRunIsGood(steps, t);
    assert IsJustified(t, serial);
    if serial !in t.givenUp && serial !in t.finished {
      var l :| Holds(t, l, serial);
      HeldIsTriedLess(t, l, serial);
    }
  }

  lemma HeldIsTriedLess(s: State, l: Place, serial: nat)
    requires StageOk(s) && RetainedIsSole(s) && Holds(s, l, serial)
    ensures AttemptsAt(s, l) < MAX_ATTEMPTS
  {
    if l.InRetained? {
      assert IsRetainable(s.retained[l.i]);
    }
  }

  /**
   * Between ticks every poll has ended, and a read is part of a committed write, or was given up in doubt or at the
   * limit, or is in the retained list after fewer than ten failed writes.
   */
  lemma BetweenTicksReadsAreRetained(steps: seq<Step>, t: State, serial: nat)
    requires Runs(Initial, steps, t) && t.stage == Idle && serial in t.sole
    ensures || (serial in t.finished && IsCommitted(t.commits, serial))
            || (serial in t.givenUp && (IsInDoubt(t.failed, serial) || FailedWrites(t.failed, serial) == MAX_ATTEMPTS))
            || exists i, n ::
                 && 0 <= i < |t.retained| && n in t.retained[i].answers
                 && t.retained[i].answers[n].serial == serial
                 && FailedWrites(t.failed, serial) == t.retained[i].attempts < MAX_ATTEMPTS
    ensures forall p: nat :: p < t.polls ==> p in t.ended
  {
    EveryRunIsGood(steps, t);
    assert IsJustified(t, serial);
    if serial !in t.finished && serial !in t.givenUp {
      var l :| Holds(t, l, serial);
      assert l.InRetained?;
      HeldIsTriedLess(t, l, serial);
      assert t.retained[l.i].answers[l.n].serial == serial;
    }
  }

  // --------------------------------------------------------- batches billed before

  ghost predicate EndsWrite(step: Step) {
    step.Succeed? || IsFailure(step)
  }

  ghost predicate HoldsNothingOf(s: State, nodes: set<NodeId>) {
    && s.writing.Writing? && (s.stage == Draining || s.stage == Collecting)
    && forall n :: n in nodes ==> n in s.writing.cohort.answers && s.writing.cohort.answers[n].reading.params == []
  }

  lemma {:induction false} StaleStaysOut(s: State, steps: seq<Step>, t: State, nodes: set<NodeId>)
    requires HoldsNothingOf(s, nodes) && Runs(s, steps, t) && forall i :: 0 <= i < |steps| ==> !EndsWrite(steps[i])
    ensures HoldsNothingOf(t, nodes)
    decreases |steps|
  {
    if steps != [] {
      assert !EndsWrite(steps[0]);
      StaleStaysOut(Apply(s, steps[0]), steps[1..], t, nodes);
    }
  }

  /** Once a write finds that batches were billed before, nothing of them is in it however it goes on. */
  lemma FoundStaleStaysOut(s: State, nodes: set<NodeId>, steps: seq<Step>, t: State)
    requires StageOk(s) && Enabled(s, FindStale(nodes))
    requires Runs(Apply(s, FindStale(nodes)), steps, t) && forall i :: 0 <= i < |steps| ==> !EndsWrite(steps[i])
    ensures HoldsNothingOf(t, nodes)
  {
    StaleStaysOut(Apply(s, FindStale(nodes)), steps, t, nodes);
  }

  // --------------------------------------------------------- a tick that goes well

  ghost predicate Reaches(s: State, t: State) {
    exists steps :: Runs(s, steps, t)
  }

  lemma StepReaches(s: State, step: Step)
    requires Enabled(s, step)
    ensures Reaches(s, Apply(s, step))
  {
    assert [step][1..] == [];
    assert Runs(s, [step], Apply(s, step));
  }

  lemma {:induction false} RunsThenRuns(s: State, first: seq<Step>, t: State, second: seq<Step>, u: State)
    requires Runs(s, first, t) && Runs(t, second, u)
    ensures Runs(s, first + second, u)
    decreases |first|
  {
    if first == [] {
      assert first + second == second;
    } else {
      RunsThenRuns(Apply(s, first[0]), first[1..], t, second, u);
      assert (first + second)[1..] == first[1..] + second;
    }
  }

  lemma ReachesOn(s: State, t: State, u: State)
    requires Reaches(s, t) && Reaches(t, u)
    ensures Reaches(s, u)
  {
    var first :| Runs(s, first, t);
    var second :| Runs(t, second, u);
    RunsThenRuns(s, first, t, second, u);
  }

  /** A tick that finds nothing retained and no nodes ends at once. */
  lemma TickWithoutNodesEnds(s: State)
    requires StageOk(s) && s.stage == Idle && s.retained == []
    ensures exists t :: Reaches(s, t) && t.stage == Idle && t.failedBefore == |s.failed| && t.users == s.users && t.commits == s.commits
  {
    var a := Apply(s, BeginTick);
    StepReaches(s, BeginTick);
    StepReaches(a, EndTick);
    ReachesOn(s, a, Apply(a, EndTick));
  }

  /** A collection starts. */
  lemma CollectionStarts(s: State, n: NodeId) returns (t: State)
    requires StageOk(s) && s.stage == Idle && s.retained == []
    ensures Reaches(s, t) && t.stage == Collecting && t.writing.NoWrite? && t.tasks == map[n := Waiting]
    ensures t.users == s.users && t.epochs == EpochsOf(s.users) && t.received == s.received
  {
    var a := Apply(s, BeginTick);
    t := Apply(a, StartCollection({n}));
    StepReaches(s, BeginTick);
    StepReaches(a, StartCollection({n}));
    ReachesOn(s, a, t);
  }

  /** A node is polled. */
  lemma NodeIsAsked(s: State, n: NodeId) returns (t: State)
    requires s.stage == Collecting && s.tasks == map[n := Waiting]
    ensures Reaches(s, t) && t == s.(tasks := map[n := Asked(s.polls)], polls := s.polls + 1)
  {
    t := Apply(s, Ask(n));
    StepReaches(s, Ask(n));
  }

  /** The node answers, and what it said is taken. */
  lemma AnswerIsTaken(s: State, reading: Reading) returns (t: State)
    requires s.stage == Collecting && s.writing.NoWrite?
    requires reading.node in s.tasks && s.tasks.Keys == {reading.node} && s.tasks[reading.node].Asked?
    ensures Reaches(s, t) && t.stage == Collecting && t.users == s.users && t.tasks == map[reading.node := Done]
    ensures t.writing.Writing? && t.writing.submission.NotYet? && t.writing.cohort.epochs == s.epochs
    ensures t.writing.cohort.answers == map[reading.node := Answer(s.received, reading, false, EpochsOf(s.users))]
  {
    var n := reading.node;
    var a := Apply(s, Reply(n, reading, false));
    t := Apply(a, TakeBatch({n}));
    StepReaches(s, Reply(n, reading, false));
    StepReaches(a, TakeBatch({n}));
    ReachesOn(s, a, t);
  }

  /** It is prepared. */
  lemma TakenIsPrepared(s: State, n: NodeId, answer: Answer) returns (t: State)
    requires s.writing.Writing? && s.writing.cohort.answers == map[n := answer] && s.writing.submission.NotYet?
    ensures Reaches(s, t) && t.stage == s.stage && t.users == s.users && t.tasks == s.tasks
    ensures t.writing.Writing? && t.writing.cohort == s.writing.cohort && t.writing.submission.Ready?
    ensures t.writing.submission.deltas == Submittable([answer.reading], s.users, s.writing.cohort.epochs)
  {
    assert ReadingsIn(s.writing.cohort.answers, [n]) == [answer.reading];
    t := Apply(s, Prepare([n]));
    StepReaches(s, Prepare([n]));
  }

  /** It is written, and the tick ends. */
  lemma PreparedIsWritten(s: State) returns (t: State)
    requires s.stage == Collecting && s.writing.Writing? && s.writing.submission.Ready?
    requires forall n :: n in s.tasks ==> s.tasks[n] == Done
    ensures Reaches(s, t) && t.stage == Idle
    ensures t.users == AfterBilling(s.users, Billed(s.users, s.writing.cohort.epochs, s.writing.submission.deltas))
  {
    var a := Apply(s, Succeed);
    var b := Apply(a, EndCollection);
    t := Apply(b, FinishSettling);
    StepReaches(s, Succeed);
    StepReaches(a, EndCollection);
    StepReaches(b, FinishSettling);
    ReachesOn(s, a, b);
    ReachesOn(s, b, t);
  }

  lemma NobodyIsFenced(users: Users, reading: Reading, u: UserId)
    requires u in users
    ensures var after := AfterBilling(users, Billed(users, EpochsOf(users), Submittable([reading], users, EpochsOf(users))));
      after.Keys == users.Keys && after[u].used == users[u].used + UserTotal([reading], u)
  {
    if u !in AllUids([reading]) {
      UserTotalAbsent([reading], u);
    }
  }

  ghost predicate IsBilledTo(users: Users, after: Users, reading: Reading) {
    forall u :: u in users ==> u in after && after[u].used == users[u].used + UserTotal([reading], u)
  }

  /**
   * From any state between ticks with nothing retained, and whatever a node answers, a tick can
   * run to its end and bill every user exactly what the node reported for it.
   */
  lemma TickCanBillWhatItReads(s: State, reading: Reading)
    requires StageOk(s) && s.stage == Idle && s.retained == []
    ensures exists t :: Reaches(s, t) && t.stage == Idle && IsBilledTo(s.users, t.users, reading)
  {
    var begun := CollectionStarts(s, reading.node);
    var a := NodeIsAsked(begun, reading.node);
    ReachesOn(s, begun, a);
    var b := AnswerIsTaken(a, reading);
    var c := TakenIsPrepared(b, reading.node, Answer(s.received, reading, false, EpochsOf(s.users)));
    var t := PreparedIsWritten(c);
    ReachesOn(s, a, b);
    ReachesOn(s, b, c);
    ReachesOn(s, c, t);
    forall u | u in s.users
      ensures u in t.users && t.users[u].used == s.users[u].used + UserTotal([reading], u)
    {
      NobodyIsFenced(s.users, reading, u);
    }
    assert IsBilledTo(s.users, t.users, reading);
  }

  // --------------------------------------------------------- every tick can end

  ghost function AskedIn(tasks: map<NodeId, Task>): set<NodeId> {
    set n | n in tasks && tasks[n].Asked?
  }

  /** However many answers are still waited for, none of them can hold up the end. */
  lemma {:induction false} SettlingEnds(s: State) returns (t: State)
    requires s.stage == Settling
    ensures Reaches(s, t) && t.stage == Idle
    decreases |AskedIn(s.tasks)|
  {
    if AskedIn(s.tasks) == {} {
      assert forall n :: n in s.tasks && s.tasks[n].Asked? ==> n in AskedIn(s.tasks);
      t := Apply(s, FinishSettling);
      StepReaches(s, FinishSettling);
    } else {
      var n :| n in AskedIn(s.tasks);
      var a := Apply(s, LoseReply(n));
      assert AskedIn(a.tasks) == AskedIn(s.tasks) - {n};
      StepReaches(s, LoseReply(n));
      t := SettlingEnds(a);
      ReachesOn(s, a, t);
    }
  }

  /** A write that fails for good ends the tick. */
  lemma WritingEnds(s: State) returns (t: State)
    requires s.writing.Writing? && (s.stage == Draining || s.stage == Collecting)
    ensures Reaches(s, t) && t.stage == Idle
  {
    var a := Apply(s, FailCleanly(false));
    StepReaches(s, FailCleanly(false));
    t := a;
    if s.stage == Collecting {
      t := SettlingEnds(a);
      ReachesOn(s, a, t);
    }
  }

  lemma DrainingEnds(s: State) returns (t: State)
    requires s.stage == Draining && s.writing.NoWrite?
    ensures Reaches(s, t) && t.stage == Idle
  {
    if s.retained == [] {
      t := Apply(s, EndTick);
      StepReaches(s, EndTick);
    } else {
      var a := Apply(s, PopRetained);
      StepReaches(s, PopRetained);
      t := WritingEnds(a);
      ReachesOn(s, a, t);
    }
  }

  /** A task that is not done yet comes to an end. */
  lemma TaskFinishes(s: State, n: NodeId) returns (t: State)
    requires s.stage == Collecting && s.writing.NoWrite? && n in s.tasks && s.tasks[n] != Done && s.tasks[n] != Cancelled
    ensures Reaches(s, t) && t.stage == Collecting && t.writing.NoWrite? && n in t.tasks && IsFinishedTask(t.tasks[n])
  {
    assert Runs(s, [], s);
    t := s;
    if s.tasks[n] == Waiting {
      t := Apply(s, Ask(n));
      StepReaches(s, Ask(n));
    }
    if t.tasks[n].Asked? {
      var a := t;
      t := Apply(a, LoseReply(n));
      StepReaches(a, LoseReply(n));
      ReachesOn(s, a, t);
    }
  }

  lemma CollectingEnds(s: State) returns (t: State)
    requires s.stage == Collecting && s.writing.NoWrite? && StoppedPollsNobody(s)
    ensures Reaches(s, t) && t.stage == Idle
  {
    if n :| n in s.tasks && s.tasks[n] != Done {
      var a := TaskFinishes(s, n);
      var b := Apply(a, TakeBatch({n}));
      StepReaches(a, TakeBatch({n}));
      t := WritingEnds(b);
      ReachesOn(s, a, b);
      ReachesOn(s, b, t);
    } else {
      var a := Apply(s, EndCollection);
      StepReaches(s, EndCollection);
      t := SettlingEnds(a);
      ReachesOn(s, a, t);
    }
  }

  /** Whatever a run is in the middle of, its tick can end. */
  lemma EveryTickCanEnd(steps: seq<Step>, s: State)
    requires Runs(Initial, steps, s)
    ensures exists t :: Reaches(s, t) && t.stage == Idle
  {
    EveryRunIsGood(steps, s);
    if s.writing.Writing? {
      var t := WritingEnds(s);
    } else if s.stage == Draining {
      var t := DrainingEnds(s);
    } else if s.stage == Collecting {
      var t := CollectingEnds(s);
    } else if s.stage == Settling {
      var t := SettlingEnds(s);
    } else {
      assert Runs(s, [], s) && Reaches(s, s);
    }
  }
}
