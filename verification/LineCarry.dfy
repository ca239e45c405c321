/**
 * Carrying line positions from one version of a file to another through a diff without context
 * lines (scripts/upstream_inventory.py, carried_positions).
 */
module LineCarry {

  type Line = string

  /**
   * The four numbers of a hunk header. Lines are counted from 1; a side of no lines names
   * the line before it.
   */
  datatype Hunk = Hunk(oldAt: nat, oldCount: nat, newAt: nat, newCount: nat) {
    /** How many old lines come before the hunk. */
    function OldBegin(): int {
      if oldCount > 0 then oldAt - 1 else oldAt
    }

    function NewBegin(): int {
      if newCount > 0 then newAt - 1 else newAt
    }

    function OldEnd(): int {
      OldBegin() + oldCount
    }

    function NewEnd(): int {
      NewBegin() + newCount
    }

    predicate Touches(number: nat) {
      oldCount > 0 && oldAt <= number < oldAt + oldCount
    }

    predicate Precedes(number: nat) {
      OldEnd() < number
    }

    function Reversed(): Hunk {
      Hunk(newAt, newCount, oldAt, oldCount)
    }
  }

  /** Two versions of a file and the hunks between them. */
  datatype Diff = Diff(before: seq<Line>, after: seq<Line>, hunks: seq<Hunk>) {
    /** Where the lines that hunk `t` leaves alone before it begin and end, on either side. */
    function OldDone(t: nat): int
      requires t <= |hunks|
    {
      if t == 0 then 0 else hunks[t - 1].OldEnd()
    }

    function NewDone(t: nat): int
      requires t <= |hunks|
    {
      if t == 0 then 0 else hunks[t - 1].NewEnd()
    }

    function OldNext(t: nat): int
      requires t <= |hunks|
    {
      if t == |hunks| then |before| else hunks[t].OldBegin()
    }

    function NewNext(t: nat): int
      requires t <= |hunks|
    {
      if t == |hunks| then |after| else hunks[t].NewBegin()
    }

    /** The stretch before hunk `t` is in both versions, and not empty between two hunks. */
    ghost predicate SameBefore(t: nat)
      requires t <= |hunks|
    {
      && 0 <= OldDone(t) <= OldNext(t) <= |before|
      && 0 <= NewDone(t) <= NewNext(t) <= |after|
      && (0 < t < |hunks| ==> OldDone(t) < OldNext(t))
      && before[OldDone(t)..OldNext(t)] == after[NewDone(t)..NewNext(t)]
    }

    /** The hunks are in order, each changes something, and nothing changes outside them. */
    ghost predicate Valid() {
      && (forall t :: 0 <= t < |hunks| ==> hunks[t].oldCount + hunks[t].newCount > 0)
      && (forall t :: 0 <= t <= |hunks| ==> SameBefore(t))
    }

    function Reversed(): Diff {
      Diff(after, before, seq(|hunks|, t requires 0 <= t < |hunks| => hunks[t].Reversed()))
    }
  }

  // ------------------------------------------------------------------ where a line lands

  /** Insertions minus deletions of the hunks before the line. */
  function Net(hunks: seq<Hunk>, number: nat): int {
    if hunks == [] then
      0
    else
      var h := hunks[|hunks| - 1];
      Net(hunks[..|hunks| - 1], number) + if h.Precedes(number) then h.newCount - h.oldCount else 0
  }

  ghost predicate IsChanged(hunks: seq<Hunk>, number: nat) {
    exists t :: 0 <= t < |hunks| && hunks[t].Touches(number)
  }

  function Range(low: int, high: int): (r: set<int>)
    ensures forall n :: n in r <==> low <= n < high
    decreases high - low
  {
    if low >= high then {} else {low} + Range(low + 1, high)
  }

  /** A changed line lands on what replaced it, or on both sides of where it was deleted. */
  function Replacement(h: Hunk): set<int> {
    if h.newCount > 0 then Range(h.newAt, h.newAt + h.newCount) else Range(h.newAt, h.newAt + 2)
  }

  /**
   * A changed line lands exactly on the lines that the reversed hunk changes; where there are
   * none, on the last line before the gap and the first one after it.
   */
  lemma ReplacementIsTheOtherSide(h: Hunk, number: nat)
    ensures h.newCount > 0 ==> (number in Replacement(h) <==> h.Reversed().Touches(number))
    ensures h.newCount == 0 ==> (number in Replacement(h) <==> number == h.NewBegin() || number == h.NewEnd() + 1)
  {
  }

  ghost predicate LandsOn(hunks: seq<Hunk>, number: nat, landed: set<int>) {
    && (!IsChanged(hunks, number) ==> landed == {number + Net(hunks, number)})
    && forall t :: 0 <= t < |hunks| && hunks[t].Touches(number) ==> landed == Replacement(hunks[t])
  }

  // ------------------------------------------------------------------ the order of hunks

  lemma {:induction false} HunksAreOrdered(d: Diff, t: nat, u: nat)
    requires d.Valid() && t < u < |d.hunks|
    ensures d.hunks[t].OldEnd() < d.hunks[u].OldBegin()
    decreases u - t
  {
    assert d.SameBefore(u);
    if t + 1 < u {
      HunksAreOrdered(d, t, u - 1);
    }
  }

  /** The first `c` hunks are before the line and the others after it. */
  ghost predicate SplitsAt(hunks: seq<Hunk>, c: nat, number: nat) {
    && c <= |hunks|
    && (forall t :: 0 <= t < c ==> hunks[t].Precedes(number))
    && (forall t :: c <= t < |hunks| ==> !hunks[t].Precedes(number) && !hunks[t].Touches(number))
  }

  lemma TouchedByOne(d: Diff, number: nat, t: nat)
    requires d.Valid() && t < |d.hunks| && d.hunks[t].Touches(number)
    ensures forall u :: 0 <= u < |d.hunks| && d.hunks[u].Touches(number) ==> u == t
  {
    forall u | 0 <= u < |d.hunks| && d.hunks[u].Touches(number)
      ensures u == t
    {
      if u < t {
        HunksAreOrdered(d, u, t);
      } else if t < u {
        HunksAreOrdered(d, t, u);
      }
    }
  }

  lemma AllBefore(d: Diff, number: nat, t: nat)
    requires d.Valid() && t < |d.hunks| && d.hunks[t].Precedes(number)
    ensures forall u :: 0 <= u < t ==> d.hunks[u].Precedes(number)
  {
    forall u | 0 <= u < t
      ensures d.hunks[u].Precedes(number)
    {
      HunksAreOrdered(d, u, t);
    }
  }

  /** The insertions minus deletions so far are how far the two versions are apart. */
  lemma {:induction false} NetIsTheGap(d: Diff, c: nat, t: nat, number: nat)
    requires d.Valid() && c <= t <= |d.hunks| && SplitsAt(d.hunks[..t], c, number)
    ensures Net(d.hunks[..t], number) == d.NewDone(c) - d.OldDone(c)
    decreases t
  {
    if t > 0 {
      assert d.hunks[..t][..t - 1] == d.hunks[..t - 1];
      assert d.hunks[..t][t - 1] == d.hunks[t - 1];
      assert forall u :: 0 <= u < t - 1 ==> d.hunks[..t][u] == d.hunks[..t - 1][u];
      if c == t {
        assert SplitsAt(d.hunks[..t - 1], c - 1, number);
        NetIsTheGap(d, c - 1, t - 1, number);
        assert d.SameBefore(t - 1);
      } else {
        assert SplitsAt(d.hunks[..t - 1], c, number);
        NetIsTheGap(d, c, t - 1, number);
      }
    }
  }

  /** The shift the code takes from one hunk alone. */
  function ShiftOf(h: Hunk): int {
    if h.oldCount > 0 then
      h.newAt + (if h.newCount > 1 then h.newCount else 1) - (h.oldAt + h.oldCount)
    else
      h.newAt + h.newCount - h.oldAt - 1
  }

  /** One more hunk that does not touch the line, before it or after it. */
  lemma NextHunk(d: Diff, number: nat, c: nat, t: nat)
    requires d.Valid() && t < |d.hunks| && SplitsAt(d.hunks[..t], c, number) && !d.hunks[t].Touches(number)
    ensures d.hunks[t].Precedes(number) ==>
              SplitsAt(d.hunks[..t + 1], t + 1, number) && ShiftOf(d.hunks[t]) == d.NewDone(t + 1) - d.OldDone(t + 1)
    ensures !d.hunks[t].Precedes(number) ==> SplitsAt(d.hunks[..t + 1], c, number)
  {
    assert d.SameBefore(t) && d.SameBefore(t + 1);
    assert forall u :: 0 <= u < t ==> d.hunks[..t + 1][u] == d.hunks[..t][u];
    if d.hunks[t].Precedes(number) {
      AllBefore(d, number, t);
    }
  }

  /**
   * The inner loop of carried_positions: the shift taken from the last hunk before the line
   * alone is what all hunks before it inserted less what they deleted.
   */
  method Land(d: Diff, number: nat) returns (landed: set<int>)
    requires d.Valid() && 1 <= number <= |d.before|
    ensures LandsOn(d.hunks, number, landed)
  {
    var shift := 0;
    ghost var c: nat := 0;
    for t := 0 to |d.hunks|
      invariant c <= t && SplitsAt(d.hunks[..t], c, number)
      invariant shift == d.NewDone(c) - d.OldDone(c)
    {
      var h := d.hunks[t];
      if h.Touches(number) {
        TouchedByOne(d, number, t);
        return Replacement(h);
      }
      NextHunk(d, number, c, t);
      if (if h.oldCount > 0 then h.oldAt + h.oldCount - 1 else h.oldAt) < number {
        shift := ShiftOf(h);
        c := t + 1;
      }
    }
    assert d.hunks[..|d.hunks|] == d.hunks;
    NetIsTheGap(d, c, |d.hunks|, number);
    landed := {number + shift};
  }

  // ------------------------------------------------------------------ unchanged lines

  lemma {:induction false} SplitExists(d: Diff, number: nat, t: nat) returns (c: nat)
    requires d.Valid() && t <= |d.hunks| && !IsChanged(d.hunks, number)
    ensures c <= t && SplitsAt(d.hunks[..t], c, number)
    decreases t
  {
    if t == 0 {
      return 0;
    }
    c := SplitExists(d, number, t - 1);
    assert forall u :: 0 <= u < t - 1 ==> d.hunks[..t][u] == d.hunks[..t - 1][u];
    if d.hunks[t - 1].Precedes(number) {
      AllBefore(d, number, t - 1);
      c := t;
    }
  }

  /** An unchanged line is in the stretch before some hunk, as far into it as where it lands. */
  lemma UnchangedIsBetween(d: Diff, number: nat) returns (c: nat)
    requires d.Valid() && 1 <= number <= |d.before| && !IsChanged(d.hunks, number)
    ensures c <= |d.hunks| && SplitsAt(d.hunks, c, number)
    ensures d.OldDone(c) < number <= d.OldNext(c)
    ensures Net(d.hunks, number) == d.NewDone(c) - d.OldDone(c)
  {
    c := SplitExists(d, number, |d.hunks|);
    assert d.hunks[..|d.hunks|] == d.hunks;
    assert d.SameBefore(c);
    NetIsTheGap(d, c, |d.hunks|, number);
  }

  /** An unchanged line lands on the same text. */
  lemma UnchangedLandsOnTheSameText(d: Diff, number: nat)
    requires d.Valid() && 1 <= number <= |d.before| && !IsChanged(d.hunks, number)
    ensures 1 <= number + Net(d.hunks, number) <= |d.after|
    ensures d.after[number + Net(d.hunks, number) - 1] == d.before[number - 1]
  {
    var c := UnchangedIsBetween(d, number);
    assert d.SameBefore(c);
    var k := number - 1 - d.OldDone(c);
    assert d.before[d.OldDone(c)..d.OldNext(c)][k] == d.after[d.NewDone(c)..d.NewNext(c)][k];
  }

  lemma ReversedIsValid(d: Diff)
    requires d.Valid()
    ensures d.Reversed().Valid()
  {
    var r := d.Reversed();
    forall t | 0 <= t <= |r.hunks|
      ensures r.SameBefore(t)
    {
      assert d.SameBefore(t);
    }
  }

  /** Carrying a line to the new version and back through the reversed diff returns it. */
  lemma CarryingBackReturnsTheLine(d: Diff, number: nat)
    requires d.Valid() && 1 <= number <= |d.before| && !IsChanged(d.hunks, number)
    ensures var landed := number + Net(d.hunks, number);
      && 1 <= landed <= |d.after|
      && !IsChanged(d.Reversed().hunks, landed)
      && landed + Net(d.Reversed().hunks, landed) == number
  {
    UnchangedLandsOnTheSameText(d, number);
    ReversedIsValid(d);
    var r, landed := d.Reversed(), number + Net(d.hunks, number);
    var c := UnchangedIsBetween(d, number);
    assert d.SameBefore(c);
    assert r.OldDone(c) < landed <= r.OldNext(c);
    BetweenSplits(r, landed, c);
    assert r.hunks[..|r.hunks|] == r.hunks;
    NetIsTheGap(r, c, |r.hunks|, landed);
  }

  lemma BetweenSplits(d: Diff, number: nat, c: nat)
    requires d.Valid() && c <= |d.hunks| && d.OldDone(c) < number <= d.OldNext(c)
    ensures SplitsAt(d.hunks, c, number) && !IsChanged(d.hunks, number)
  {
    forall t | 0 <= t < |d.hunks|
      ensures t < c ==> d.hunks[t].Precedes(number)
      ensures t >= c ==> !d.hunks[t].Precedes(number) && !d.hunks[t].Touches(number)
    {
      assert d.SameBefore(t) && d.SameBefore(t + 1);
      if t + 1 < c {
        HunksAreOrdered(d, t, c - 1);
        assert d.SameBefore(c - 1);
      } else if c < t {
        HunksAreOrdered(d, c, t);
      }
    }
  }

  // ------------------------------------------------------------------ positions among kept lines

  /** How a line counts: its normal form, where an empty one does not. */
  type Normalise = Line -> Line

  predicate IsKept(lines: seq<Line>, comments: set<nat>, normalise: Normalise, number: int) {
    1 <= number <= |lines| && number !in comments && normalise(lines[number - 1]) != ""
  }

  /** kept_line_numbers: the lines that are neither comments nor empty, in order. */
  function KeptLineNumbers(lines: seq<Line>, comments: set<nat>, normalise: Normalise): (kept: seq<nat>)
    ensures forall number :: number in kept <==>
              1 <= number <= |lines| && number !in comments && normalise(lines[number - 1]) != ""
    ensures forall i, j :: 0 <= i < j < |kept| ==> kept[i] < kept[j]
  {
    if lines == [] then
      []
    else
      var n := |lines|;
      var rest := KeptLineNumbers(lines[..n - 1], comments, normalise);
      assert forall i :: 0 <= i < |rest| ==> rest[i] in rest;
      assert forall number :: number in rest ==> IsKept(lines[..n - 1], comments, normalise, number);
      if IsKept(lines, comments, normalise, n) then rest + [n] else rest
  }

  datatype Blob = Missing | Lines(lines: seq<Line>, comments: set<nat>)

  /** The line at a position of the old version lands on a line number of the new one. */
  ghost predicate Carries(hunks: seq<Hunk>, oldKept: seq<nat>, index: nat, number: int) {
    && index < |oldKept|
    && forall landed :: LandsOn(hunks, oldKept[index], landed) ==> number in landed
  }

  /** carried_positions, given the two blobs, whether they are of one commit, and their diff. */
  method CarriedPositions(
    sameRef: bool, before: Blob, after: Blob, hunks: seq<Hunk>, normalise: Normalise, positions: set<nat>)
    returns (carried: set<nat>)
    requires before.Lines? && after.Lines? ==> Diff(before.lines, after.lines, hunks).Valid()
    ensures sameRef || positions == {} ==> carried == positions
    ensures !sameRef && (before.Missing? || after.Missing?) ==> carried == {}
    ensures !sameRef && positions != {} && before.Lines? && after.Lines? ==>
              var oldKept := KeptLineNumbers(before.lines, before.comments, normalise);
              var newKept := KeptLineNumbers(after.lines, after.comments, normalise);
              forall k: nat :: k in carried <==>
                && k < |newKept|
                && exists index :: index in positions && Carries(hunks, oldKept, index, newKept[k])
  {
    if sameRef || positions == {} {
      return positions;
    }
    if before.Missing? || after.Missing? {
      return {};
    }
    var d := Diff(before.lines, after.lines, hunks);
    var oldKept := KeptLineNumbers(before.lines, before.comments, normalise);
    var newKept := KeptLineNumbers(after.lines, after.comments, normalise);
    var raw: set<int> := {};
    var left := positions;
    while left != {}
      invariant left <= positions
      invariant forall n :: n in raw ==> exists index :: index in positions && Carries(hunks, oldKept, index, n)
      invariant forall index, n :: index in positions - left && Carries(hunks, oldKept, index, n) ==> n in raw
      decreases left
    {
      var index :| index in left;
      if index < |oldKept| {
        assert oldKept[index] in oldKept;
        var landed := Land(d, oldKept[index]);
        OneLanding(d, oldKept[index], landed);
        raw := raw + landed;
      }
      left := left - {index};
    }
    carried := set k | 0 <= k < |newKept| && newKept[k] in raw;
  }

  lemma OneLanding(d: Diff, number: nat, landed: set<int>)
    requires d.Valid() && LandsOn(d.hunks, number, landed)
    ensures forall other :: LandsOn(d.hunks, number, other) ==> other == landed
  {
  }

  lemma StretchesAreOrdered(d: Diff, a: nat, b: nat)
    requires d.Valid() && a < b <= |d.hunks|
    ensures d.OldNext(a) <= d.OldDone(b)
  {
    assert d.SameBefore(b - 1);
    if a < b - 1 {
      HunksAreOrdered(d, a, b - 1);
    }
  }

  /** Unchanged lines land in their order. */
  lemma UnchangedLinesKeepTheirOrder(d: Diff, first: nat, second: nat)
    requires d.Valid() && 1 <= first < second <= |d.before|
    requires !IsChanged(d.hunks, first) && !IsChanged(d.hunks, second)
    ensures first + Net(d.hunks, first) < second + Net(d.hunks, second)
  {
    var a := UnchangedIsBetween(d, first);
    var b := UnchangedIsBetween(d, second);
    assert d.SameBefore(a) && d.SameBefore(b);
    if b < a {
      StretchesAreOrdered(d, b, a);
    } else if a < b {
      ReversedIsValid(d);
      StretchesAreOrdered(d.Reversed(), a, b);
    }
  }

  /**
   * A position of an unchanged line is carried to the position of the same text, or dropped,
   * and it is dropped exactly when the line it lands on counts as a comment in the new version.
   */
  lemma UnchangedPositionIsCarriedOrDropped(
    d: Diff, oldComments: set<nat>, newComments: set<nat>, normalise: Normalise, index: nat)
    requires d.Valid() && index < |KeptLineNumbers(d.before, oldComments, normalise)|
    requires !IsChanged(d.hunks, KeptLineNumbers(d.before, oldComments, normalise)[index])
    ensures var oldKept := KeptLineNumbers(d.before, oldComments, normalise);
      var newKept := KeptLineNumbers(d.after, newComments, normalise);
      var landed := oldKept[index] + Net(d.hunks, oldKept[index]);
      && (forall k: nat :: k < |newKept| && Carries(d.hunks, oldKept, index, newKept[k]) ==>
            newKept[k] == landed && 1 <= landed <= |d.after| && 1 <= oldKept[index] <= |d.before| && d.after[landed - 1] == d.before[oldKept[index] - 1])
      && ((exists k: nat :: k < |newKept| && Carries(d.hunks, oldKept, index, newKept[k])) <==> landed !in newComments)
  {
    var oldKept := KeptLineNumbers(d.before, oldComments, normalise);
    var newKept := KeptLineNumbers(d.after, newComments, normalise);
    var number := oldKept[index];
    assert number in oldKept && IsKept(d.before, oldComments, normalise, number);
    var landed := number + Net(d.hunks, number);
    UnchangedLandsOnTheSameText(d, number);
    OnlyLanding(d.hunks, oldKept, index);
    assert IsKept(d.after, newComments, normalise, landed) <==> landed !in newComments;
    assert landed in newKept <==> landed !in newComments;
    if landed in newKept {
      var k: nat :| k < |newKept| && newKept[k] == landed;
      assert Carries(d.hunks, oldKept, index, newKept[k]);
    }
  }

  lemma OnlyLanding(hunks: seq<Hunk>, oldKept: seq<nat>, index: nat)
    requires index < |oldKept| && !IsChanged(hunks, oldKept[index])
    ensures forall n :: Carries(hunks, oldKept, index, n) <==> n == oldKept[index] + Net(hunks, oldKept[index])
  {
    var number := oldKept[index];
    assert LandsOn(hunks, number, {number + Net(hunks, number)});
  }
}
