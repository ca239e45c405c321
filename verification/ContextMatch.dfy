/**
 * Finding where a block of changed lines sits in a file by the lines around it, which may have
 * a few others between them (scripts/upstream_inventory.py, context_follows).
 */
module ContextMatch {

  type Line = string

  const CONTEXT_SLACK: nat := 2

  /** Up or down the file. */
  datatype Direction = Up | Down

  /** The line `n` steps on. */
  function On(start: int, dir: Direction, n: int): int {
    if dir == Up then start - n else start + n
  }

  // ------------------------------------------------------------------ alignments

  /** `at[k]` lines from the start, in the direction of travel, stands line `k` of the context. */
  ghost predicate IsPlacement(lines: seq<Line>, start: int, dir: Direction, context: seq<Line>, at: seq<nat>) {
    && |at| == |context|
    && (forall j, k :: 0 <= j < k < |at| ==> at[j] < at[k])
    && (forall k :: 0 <= k < |at| ==> 0 <= On(start, dir, at[k]) < |lines|)
    && (forall k :: 0 <= k < |at| ==> lines[On(start, dir, at[k])] == context[k])
  }

  /** The lines passed over up to the last line of the context. */
  function Skipped(at: seq<nat>): int {
    if at == [] then 0 else at[|at| - 1] + 1 - |at|
  }

  ghost predicate IsAlignment(lines: seq<Line>, start: int, dir: Direction, context: seq<Line>, slack: nat, at: seq<nat>) {
    IsPlacement(lines, start, dir, context, at) && Skipped(at) <= slack
  }

  /** Some order-preserving placement of the whole context skips at most `slack` lines. */
  ghost predicate Aligns(lines: seq<Line>, start: int, dir: Direction, context: seq<Line>, slack: nat) {
    exists at :: IsAlignment(lines, start, dir, context, slack, at)
  }

  /** Travel does not begin behind the end it starts from. */
  predicate IsStart(lines: seq<Line>, start: int, dir: Direction) {
    if dir == Up then start < |lines| else 0 <= start
  }

  // ------------------------------------------------------------------ why greedy is enough

  function Moved(at: seq<nat>, d: int): seq<nat>
    requires forall k :: 0 <= k < |at| ==> 0 <= at[k] + d
  {
    seq(|at|, k requires 0 <= k < |at| => at[k] + d)
  }

  lemma {:induction false} OffsetsGrow(at: seq<nat>, k: nat)
    requires k < |at| && forall i, j :: 0 <= i < j < |at| ==> at[i] < at[j]
    ensures at[k] - at[0] >= k
  {
    if k > 0 {
      OffsetsGrow(at, k - 1);
    }
  }

  lemma MoveBack(lines: seq<Line>, start: int, dir: Direction, context: seq<Line>, at: seq<nat>)
    requires IsPlacement(lines, start, dir, context, at) && forall k :: 0 <= k < |at| ==> at[k] > 0
    ensures IsPlacement(lines, On(start, dir, 1), dir, context, Moved(at, -1))
  {
  }

  lemma MoveOn(lines: seq<Line>, start: int, dir: Direction, context: seq<Line>, at: seq<nat>)
    requires IsPlacement(lines, On(start, dir, 1), dir, context, at)
    ensures IsPlacement(lines, start, dir, context, Moved(at, 1))
  {
  }

  lemma SkipFirst(lines: seq<Line>, start: int, dir: Direction, context: seq<Line>, slack: nat, at: seq<nat>)
    requires context != [] && 0 <= start < |lines| && lines[start] != context[0]
    requires IsAlignment(lines, start, dir, context, slack, at)
    ensures slack > 0 && Aligns(lines, On(start, dir, 1), dir, context, slack - 1)
  {
    assert lines[On(start, dir, at[0])] == context[0];
    OffsetsGrow(at, |at| - 1);
    assert forall k :: 0 < k < |at| ==> at[k] > at[0];
    MoveBack(lines, start, dir, context, at);
    assert IsAlignment(lines, On(start, dir, 1), dir, context, slack - 1, Moved(at, -1));
  }

  lemma SkipOne(lines: seq<Line>, start: int, dir: Direction, context: seq<Line>, slack: nat, at: seq<nat>)
    requires IsAlignment(lines, On(start, dir, 1), dir, context, slack, at)
    ensures Aligns(lines, start, dir, context, slack + 1)
  {
    MoveOn(lines, start, dir, context, at);
    assert IsAlignment(lines, start, dir, context, slack + 1, Moved(at, 1));
  }

  /** A line that does not match has to be skipped. */
  lemma MismatchIsSkipped(lines: seq<Line>, start: int, dir: Direction, context: seq<Line>, slack: nat)
    requires context != [] && 0 <= start < |lines| && lines[start] != context[0]
    ensures Aligns(lines, start, dir, context, slack) <==>
              slack > 0 && Aligns(lines, On(start, dir, 1), dir, context, slack - 1)
  {
    if Aligns(lines, start, dir, context, slack) {
      var at :| IsAlignment(lines, start, dir, context, slack, at);
      SkipFirst(lines, start, dir, context, slack, at);
    }
    if slack > 0 && Aligns(lines, On(start, dir, 1), dir, context, slack - 1) {
      var at :| IsAlignment(lines, On(start, dir, 1), dir, context, slack - 1, at);
      SkipOne(lines, start, dir, context, slack - 1, at);
    }
  }

  lemma DropFirst(lines: seq<Line>, start: int, dir: Direction, context: seq<Line>, slack: nat, at: seq<nat>)
    requires context != [] && IsAlignment(lines, start, dir, context, slack, at)
    ensures Aligns(lines, On(start, dir, 1), dir, context[1..], slack)
  {
    var rest := at[1..];
    forall k | 0 <= k < |rest|
      ensures rest[k] > 0
    {
      assert rest[k] == at[k + 1] > at[0];
    }
    assert IsPlacement(lines, start, dir, context[1..], rest);
    MoveBack(lines, start, dir, context[1..], rest);
    assert IsAlignment(lines, On(start, dir, 1), dir, context[1..], slack, Moved(rest, -1));
  }

  lemma Prepend(lines: seq<Line>, start: int, dir: Direction, context: seq<Line>, at: seq<nat>)
    requires context != [] && 0 <= start < |lines| && lines[start] == context[0]
    requires IsPlacement(lines, start, dir, context[1..], at) && forall k :: 0 <= k < |at| ==> at[k] > 0
    ensures IsPlacement(lines, start, dir, context, [0] + at)
  {
    var all := [0] + at;
    forall k | 0 <= k < |all|
      ensures 0 <= On(start, dir, all[k]) < |lines| && lines[On(start, dir, all[k])] == context[k]
    {
      if k > 0 {
        assert all[k] == at[k - 1] && context[k] == context[1..][k - 1];
      }
    }
    forall j, k | 0 <= j < k < |all|
      ensures all[j] < all[k]
    {
      assert all[k] == at[k - 1];
      assert j > 0 ==> all[j] == at[j - 1];
    }
  }

  lemma PrependSkipsNoMore(at: seq<nat>)
    ensures Skipped([0] + Moved(at, 1)) == Skipped(at)
  {
    if at != [] {
      assert ([0] + Moved(at, 1))[|at|] == at[|at| - 1] + 1;
    }
  }

  lemma TakeFirst(lines: seq<Line>, start: int, dir: Direction, context: seq<Line>, slack: nat, at: seq<nat>)
    requires context != [] && 0 <= start < |lines| && lines[start] == context[0]
    requires IsAlignment(lines, On(start, dir, 1), dir, context[1..], slack, at)
    ensures Aligns(lines, start, dir, context, slack)
  {
    MoveOn(lines, start, dir, context[1..], at);
    var moved := Moved(at, 1);
    assert forall k :: 0 <= k < |moved| ==> moved[k] > 0;
    Prepend(lines, start, dir, context, moved);
    PrependSkipsNoMore(at);
    var all := [0] + moved;
    assert IsAlignment(lines, start, dir, context, slack, all);
  }

  /** A line that matches may as well be taken. */
  lemma MatchIsTaken(lines: seq<Line>, start: int, dir: Direction, context: seq<Line>, slack: nat)
    requires context != [] && 0 <= start < |lines| && lines[start] == context[0]
    ensures Aligns(lines, start, dir, context, slack) <==> Aligns(lines, On(start, dir, 1), dir, context[1..], slack)
  {
    if Aligns(lines, start, dir, context, slack) {
      var at :| IsAlignment(lines, start, dir, context, slack, at);
      DropFirst(lines, start, dir, context, slack, at);
    }
    if Aligns(lines, On(start, dir, 1), dir, context[1..], slack) {
      var at :| IsAlignment(lines, On(start, dir, 1), dir, context[1..], slack, at);
      TakeFirst(lines, start, dir, context, slack, at);
    }
  }

  /** Past the end there is nothing left to match. */
  lemma NothingPastTheEnd(lines: seq<Line>, start: int, dir: Direction, context: seq<Line>, slack: nat)
    requires context != [] && IsStart(lines, start, dir) && !(0 <= start < |lines|)
    ensures !Aligns(lines, start, dir, context, slack)
  {
    forall at
      ensures !IsAlignment(lines, start, dir, context, slack, at)
    {
      assert |at| > 0 ==> !(0 <= On(start, dir, at[0]) < |lines|);
    }
  }

  lemma EmptyContextAligns(lines: seq<Line>, start: int, dir: Direction, slack: nat)
    ensures Aligns(lines, start, dir, [], slack)
  {
    assert IsAlignment(lines, start, dir, [], slack, []);
  }

  // ------------------------------------------------------------------ the code

  /** context_follows: accepts exactly when some alignment of the whole context exists. */
  method ContextFollows(lines: seq<Line>, start: int, dir: Direction, context: seq<Line>) returns (follows: bool)
    requires IsStart(lines, start, dir)
    ensures follows <==> Aligns(lines, start, dir, context, CONTEXT_SLACK)
  {
    var slack := CONTEXT_SLACK;
    var index := start;
    for n := 0 to |context|
      invariant IsStart(lines, index, dir)
      invariant Aligns(lines, start, dir, context, CONTEXT_SLACK) <==> Aligns(lines, index, dir, context[n..], slack)
    {
      var expected := context[n];
      while 0 <= index < |lines| && lines[index] != expected
        invariant IsStart(lines, index, dir)
        invariant Aligns(lines, start, dir, context, CONTEXT_SLACK) <==> Aligns(lines, index, dir, context[n..], slack)
        decreases slack
      {
        MismatchIsSkipped(lines, index, dir, context[n..], slack);
        if slack == 0 {
          return false;
        }
        slack := slack - 1;
        index := On(index, dir, 1);
      }
      if !(0 <= index < |lines|) {
        NothingPastTheEnd(lines, index, dir, context[n..], slack);
        return false;
      }
      MatchIsTaken(lines, index, dir, context[n..], slack);
      assert context[n..][1..] == context[n + 1..];
      index := On(index, dir, 1);
    }
    EmptyContextAligns(lines, index, dir, slack);
    return true;
  }

  datatype Side = Side(before: seq<Line>, core: seq<Line>, after: seq<Line>)

  datatype File = Missing | Lines(lines: seq<Line>)

  function Reversed(s: seq<Line>): (r: seq<Line>)
    ensures |r| == |s| && forall k :: 0 <= k < |s| ==> r[k] == s[|s| - 1 - k]
  {
    seq(|s|, k requires 0 <= k < |s| => s[|s| - 1 - k])
  }

  /** The block is at line `i`, with its context around it up to the slack on either side. */
  ghost predicate FitsAt(lines: seq<Line>, side: Side, i: int) {
    && 0 <= i <= |lines| - |side.core|
    && lines[i..i + |side.core|] == side.core
    && Aligns(lines, i - 1, Up, Reversed(side.before), CONTEXT_SLACK)
    && Aligns(lines, i + |side.core|, Down, side.after, CONTEXT_SLACK)
  }

  ghost predicate FitsSomewhere(file: File, side: Side) {
    file.Lines? && exists i :: FitsAt(file.lines, side, i)
  }

  method Fits(lines: seq<Line>, side: Side, i: nat) returns (fits: bool)
    requires i <= |lines| - |side.core|
    ensures fits <==> FitsAt(lines, side, i)
  {
    if lines[i..i + |side.core|] != side.core {
      return false;
    }
    fits := ContextFollows(lines, i - 1, Up, Reversed(side.before));
    if fits {
      fits := ContextFollows(lines, i + |side.core|, Down, side.after);
    }
  }

  /** block_in_place. */
  method BlockInPlace(file: File, side: Side) returns (found: bool)
    ensures found <==> FitsSomewhere(file, side)
  {
    if file.Missing? {
      return false;
    }
    var i := 0;
    while i <= |file.lines| - |side.core|
      invariant 0 <= i
      invariant forall k :: 0 <= k < i ==> !FitsAt(file.lines, side, k)
      decreases |file.lines| - |side.core| - i
    {
      var fits := Fits(file.lines, side, i);
      if fits {
        return true;
      }
      i := i + 1;
    }
    return false;
  }

  /** block_positions: every place, in order, so there is one exactly when the block is in place. */
  method BlockPositions(file: File, side: Side) returns (positions: seq<nat>)
    ensures forall i :: i in positions <==> file.Lines? && FitsAt(file.lines, side, i)
    ensures forall j, k :: 0 <= j < k < |positions| ==> positions[j] < positions[k]
    ensures positions != [] <==> FitsSomewhere(file, side)
  {
    positions := [];
    if file.Missing? {
      return;
    }
    var i := 0;
    while i <= |file.lines| - |side.core|
      invariant 0 <= i
      invariant forall k :: k in positions <==> k < i && FitsAt(file.lines, side, k)
      invariant forall j, k :: 0 <= j < k < |positions| ==> positions[j] < positions[k]
      invariant forall k :: 0 <= k < |positions| ==> positions[k] < i
      decreases |file.lines| - |side.core| - i
    {
      var fits := Fits(file.lines, side, i);
      if fits {
        positions := positions + [i];
      }
      i := i + 1;
    }
    if positions != [] {
      assert positions[0] in positions;
    }
  }
}
