/**
 * One transaction with retries, and what its failure says about the commit
 * (run_in_retried_transaction and _write_may_have_committed in app/jobs/record_usages.py).
 */
module RetriedTransaction {

  const MAX_RETRIES: nat := 5

  /** What the database driver says about an error; `missingParent` is a node row gone meanwhile. */
  datatype DbError = DbError(retriable: bool, locked: bool, invalidated: bool, missingParent: bool)

  /** How one attempt goes; a commit that reports an error may have landed all the same. */
  datatype Attempt =
    | Commits
    | OperationRaises
    | OperationFails(error: DbError)
    | CommitFails(error: DbError, landed: bool)

  datatype Ending = Done | RaisedOther | RaisedDb(error: DbError, beforeCommit: bool)

  /**
   * The driver's promise: a commit that landed is reported only as a lost connection, never as
   * a retriable error or a broken constraint.
   */
  predicate IsTruthful(a: Attempt) {
    a.CommitFails? && a.landed ==> a.error.invalidated && !a.error.retriable && !a.error.missingParent
  }

  ghost predicate AreTruthful(attempts: seq<Attempt>) {
    forall i :: 0 <= i < |attempts| ==> IsTruthful(attempts[i])
  }

  predicate WriteMayHaveCommitted(e: Ending) {
    e.RaisedDb? && e.error.invalidated && !e.beforeCommit
  }

  /**
   * The k-th attempt is the last one: it commits, raises something else, fails for good, finds
   * the database locked once more, or uses up the attempts.
   */
  ghost predicate StopsAt(attempts: seq<Attempt>, k: nat)
    requires 1 <= k <= |attempts|
  {
    match attempts[k - 1]
    case Commits => true
    case OperationRaises => true
    case OperationFails(error) => !error.retriable || (error.locked && k > 1) || k == MAX_RETRIES
    case CommitFails(error, _) => !error.retriable || (error.locked && k > 1) || k == MAX_RETRIES
  }

  /** What the last attempt makes of the run; an error of the operation came before the commit. */
  ghost predicate EndsWith(end: Ending, last: Attempt) {
    match last
    case Commits => end == Done
    case OperationRaises => end == RaisedOther
    case OperationFails(error) => end == RaisedDb(error, true)
    case CommitFails(error, _) => end == RaisedDb(error, false)
  }

  /** How many of the attempts took effect. */
  ghost function Landed(attempts: seq<Attempt>): nat {
    if attempts == [] then
      0
    else
      var last := attempts[|attempts| - 1];
      Landed(attempts[..|attempts| - 1]) + if last.Commits? || (last.CommitFails? && last.landed) then 1 else 0
  }

  /** The run makes attempts up to the first that stops it, and ends as that one does. */
  ghost predicate IsRunOf(attempts: seq<Attempt>, end: Ending, effects: nat, tries: nat)
    requires |attempts| >= MAX_RETRIES
  {
    && 1 <= tries <= MAX_RETRIES && StopsAt(attempts, tries)
    && (forall k :: 1 <= k < tries ==> !StopsAt(attempts, k))
    && EndsWith(end, attempts[tries - 1])
    && effects == Landed(attempts[..tries])
  }

  /** How often the writes took effect, against what the ending says of it. */
  ghost predicate IsCountedRight(end: Ending, effects: nat) {
    && (end.Done? ==> effects == 1)
    && (!end.Done? && !WriteMayHaveCommitted(end) ==> effects == 0)
    && effects <= 1
  }

  predicate MissesParent(end: Ending) {
    end.RaisedDb? && end.error.missingParent
  }

  lemma {:induction false} NothingLanded(attempts: seq<Attempt>, k: nat)
    requires k <= |attempts| && AreTruthful(attempts)
    requires forall j :: 1 <= j <= k ==> !StopsAt(attempts, j)
    ensures Landed(attempts[..k]) == 0
  {
    if k > 0 {
      NothingLanded(attempts, k - 1);
      assert attempts[..k][..k - 1] == attempts[..k - 1];
      assert !StopsAt(attempts, k) && IsTruthful(attempts[k - 1]);
    }
  }

  /**
   * The writes of a run take effect at most once; a failure that is not in doubt, or that is a
   * missing parent, means that they did not take effect.
   */
  lemma RunTakesEffectOnce(attempts: seq<Attempt>, end: Ending, effects: nat, tries: nat)
    requires |attempts| >= MAX_RETRIES && AreTruthful(attempts) && IsRunOf(attempts, end, effects, tries)
    ensures IsCountedRight(end, effects) && (MissesParent(end) ==> effects == 0)
  {
    NothingLanded(attempts, tries - 1);
    assert attempts[..tries][..tries - 1] == attempts[..tries - 1];
    assert IsTruthful(attempts[tries - 1]);
  }

  /** The attempts decide the run. */
  lemma RunIsUnique(attempts: seq<Attempt>, end: Ending, effects: nat, tries: nat, end': Ending, effects': nat, tries': nat)
    requires |attempts| >= MAX_RETRIES
    requires IsRunOf(attempts, end, effects, tries) && IsRunOf(attempts, end', effects', tries')
    ensures end == end' && effects == effects' && tries == tries'
  {
  }

  /**
   * The in-doubt test is no wider than it has to be: whatever it calls in doubt, and a driver
   * can report of a commit that landed, is the ending of a run whose writes took effect.
   */
  lemma DoubtIsReal(error: DbError, beforeCommit: bool)
    requires WriteMayHaveCommitted(RaisedDb(error, beforeCommit)) && !error.retriable && !error.missingParent
    ensures exists attempts :: |attempts| >= MAX_RETRIES && AreTruthful(attempts) && IsRunOf(attempts, RaisedDb(error, beforeCommit), 1, 1)
  {
    var landed := CommitFails(error, true);
    var attempts := seq(MAX_RETRIES, _ => landed);
    assert attempts[..1] == [landed] && [landed][..0] == [];
    assert IsRunOf(attempts, RaisedDb(error, beforeCommit), 1, 1);
  }

  /** `effects` counts the attempts whose writes took effect. */
  method RunInRetriedTransaction(attempts: seq<Attempt>) returns (end: Ending, effects: nat, tries: nat)
    requires |attempts| >= MAX_RETRIES
    ensures IsRunOf(attempts, end, effects, tries)
    ensures AreTruthful(attempts) ==> IsCountedRight(end, effects) && (MissesParent(end) ==> effects == 0)
  {
    effects := 0;
    tries := 0;
    while true
      invariant tries < MAX_RETRIES
      invariant forall k :: 1 <= k <= tries ==> !StopsAt(attempts, k)
      invariant effects == Landed(attempts[..tries])
      decreases MAX_RETRIES - tries
    {
      var attempt := attempts[tries];
      assert attempts[..tries + 1][..tries] == attempts[..tries];
      tries := tries + 1;
      if attempt.Commits? {
        end, effects := Done, effects + 1;
        break;
      } else if attempt.OperationRaises? {
        end := RaisedOther;
        break;
      }
      var error := attempt.error;
      if attempt.CommitFails? && attempt.landed {
        effects := effects + 1;
      }
      if !(tries < MAX_RETRIES && error.retriable) || (error.locked && tries > 1) {
        end := RaisedDb(error, attempt.OperationFails?);
        break;
      }
    }
    if AreTruthful(attempts) {
      RunTakesEffectOnce(attempts, end, effects, tries);
    }
  }

  /** A second run, exactly when the first one missed a parent, whose ending is then the last. */
  ghost predicate IsRunAgain(first: seq<Attempt>, second: seq<Attempt>, end: Ending, effects: nat)
    requires |first| >= MAX_RETRIES && |second| >= MAX_RETRIES
  {
    exists e, n, k :: IsRunOf(first, e, n, k) && IsLastEnding(second, e, n, end, effects)
  }

  ghost predicate IsLastEnding(second: seq<Attempt>, firstEnd: Ending, firstEffects: nat, end: Ending, effects: nat)
    requires |second| >= MAX_RETRIES
  {
    if MissesParent(firstEnd) then
      exists n, k :: IsRunOf(second, end, n, k) && effects == firstEffects + n
    else
      end == firstEnd && effects == firstEffects
  }

  /**
   * The transaction of apply_fenced_user_usage and write_node_usage: it is run a second time
   * when a node it names is gone. Over both runs the writes take effect at most once, and the
   * last ending tells whether they did or may have.
   */
  method RunAgainWithoutParent(first: seq<Attempt>, second: seq<Attempt>) returns (end: Ending, effects: nat)
    requires |first| >= MAX_RETRIES && |second| >= MAX_RETRIES
    ensures IsRunAgain(first, second, end, effects)
    ensures AreTruthful(first) && AreTruthful(second) ==> IsCountedRight(end, effects)
  {
    var tries: nat;
    end, effects, tries := RunInRetriedTransaction(first);
    if MissesParent(end) {
      ghost var firstEnd, firstEffects := end, effects;
      var more: nat;
      end, more, tries := RunInRetriedTransaction(second);
      effects := effects + more;
      assert IsRunOf(second, end, more, tries);
      assert IsLastEnding(second, firstEnd, firstEffects, end, effects);
    }
  }
}
