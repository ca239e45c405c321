/**
 * Lines of a byte string as splitlines(keepends=True) cuts them: after LF, CR or CR LF. A byte
 * is written as the character of the same code.
 */
module ByteLines {

  type Bytes = string

  const CR: char := '\r'
  const LF: char := '\n'

  predicate IsBreak(c: char) {
    c == CR || c == LF
  }

  /** Where the first line ends. */
  function LineEnd(data: Bytes): (n: nat)
    requires data != []
    ensures 1 <= n <= |data|
  {
    if data[0] == LF || |data| == 1 then
      1
    else if data[0] == CR then
      if data[1] == LF then 2 else 1
    else
      1 + LineEnd(data[1..])
  }

  function SplitLines(data: Bytes): seq<Bytes> {
    if data == [] then [] else [data[..LineEnd(data)]] + SplitLines(data[LineEnd(data)..])
  }

  function Concat(lines: seq<Bytes>): Bytes {
    if lines == [] then [] else lines[0] + Concat(lines[1..])
  }

  /** line_body: without the breaks at its end. */
  function LineBody(line: Bytes): (body: Bytes)
    ensures body <= line
  {
    if line != [] && IsBreak(line[|line| - 1]) then LineBody(line[..|line| - 1]) else line
  }

  /** A single line, with or without its break. */
  predicate IsLine(line: Bytes) {
    line != [] && LineEnd(line) == |line|
  }

  predicate IsBroken(line: Bytes) {
    line != [] && IsBreak(line[|line| - 1])
  }

  /** Lines that only the last may be without a break of. */
  ghost predicate AreLines(lines: seq<Bytes>) {
    && (forall i :: 0 <= i < |lines| ==> IsLine(lines[i]))
    && (forall i :: 0 <= i < |lines| - 1 ==> IsBroken(lines[i]))
  }

  // ------------------------------------------------------------------ cutting and joining

  lemma {:induction false} ConcatOfSplit(data: Bytes)
    ensures Concat(SplitLines(data)) == data
    decreases |data|
  {
    if data != [] {
      var n := LineEnd(data);
      ConcatOfSplit(data[n..]);
      var rest := SplitLines(data[n..]);
      var lines := [data[..n]] + rest;
      assert lines[1..] == rest && lines[0] == data[..n];
      assert Concat(lines) == data[..n] + Concat(rest);
    }
  }

  lemma {:induction false} ConcatOfBoth(a: seq<Bytes>, b: seq<Bytes>)
    ensures Concat(a + b) == Concat(a) + Concat(b)
  {
    if a == [] {
      assert a + b == b;
    } else {
      assert (a + b)[1..] == a[1..] + b;
      ConcatOfBoth(a[1..], b);
    }
  }

  lemma {:induction false} FirstLineIsALine(data: Bytes)
    requires data != []
    ensures IsLine(data[..LineEnd(data)])
    ensures LineEnd(data) < |data| ==> IsBroken(data[..LineEnd(data)])
    decreases |data|
  {
    if data[0] == LF || |data| == 1 || data[0] == CR {
    } else {
      FirstLineIsALine(data[1..]);
      var n := LineEnd(data[1..]);
      assert data[..1 + n][1..] == data[1..][..n];
    }
  }

  lemma {:induction false} SplitGivesLines(data: Bytes)
    ensures AreLines(SplitLines(data))
    decreases |data|
  {
    if data != [] {
      FirstLineIsALine(data);
      SplitGivesLines(data[LineEnd(data)..]);
    }
  }

  // ------------------------------------------------------------------ lines put together anew

  predicate EndsInCR(line: Bytes) {
    line != [] && line[|line| - 1] == CR
  }

  /** A lone LF after a line that ends in CR becomes the second half of its break. */
  function Glue(lines: seq<Bytes>): seq<Bytes> {
    if |lines| < 2 then
      lines
    else if EndsInCR(lines[0]) && lines[1] == [LF] then
      [lines[0] + [LF]] + Glue(lines[2..])
    else
      [lines[0]] + Glue(lines[1..])
  }

  lemma {:induction false} FirstLineOfJoined(line: Bytes, rest: Bytes)
    requires IsLine(line) && IsBroken(line)
    ensures line + rest != []
    ensures LineEnd(line + rest) == if EndsInCR(line) && rest != [] && rest[0] == LF then |line| + 1 else |line|
    decreases |line|
  {
    var all := line + rest;
    assert all[0] == line[0];
    if IsBreak(line[0]) {
      assert line[0] == LF ==> |line| == 1;
      assert |line| == 1 && rest != [] ==> all[1] == rest[0];
      assert |line| == 2 ==> all[1] == line[1];
    } else {
      assert |line| > 1;
      assert IsLine(line[1..]) && IsBroken(line[1..]);
      FirstLineOfJoined(line[1..], rest);
      assert all[1..] == line[1..] + rest;
    }
  }

  lemma LinesAfter(lines: seq<Bytes>, k: nat)
    requires AreLines(lines) && k <= |lines|
    ensures AreLines(lines[k..])
  {
  }

  /** Splitting lines that were joined gives them back, up to gluing. */
  lemma {:induction false} SplitOfConcat(lines: seq<Bytes>)
    requires AreLines(lines)
    ensures SplitLines(Concat(lines)) == Glue(lines)
    decreases |lines|
  {
    if |lines| == 1 {
      assert Concat(lines) == lines[0];
      assert lines[0][..|lines[0]|] == lines[0];
    } else if |lines| >= 2 {
      var first, rest := lines[0], Concat(lines[1..]);
      FirstLineOfJoined(first, rest);
      LinesAfter(lines, 1);
      assert rest[0] == lines[1][0];
      assert lines[1][0] == LF <==> lines[1] == [LF];
      if EndsInCR(first) && lines[1] == [LF] {
        LinesAfter(lines, 2);
        SplitOfConcat(lines[2..]);
        assert lines[1..][1..] == lines[2..];
        assert first + rest == (first + [LF]) + Concat(lines[2..]);
        assert (first + rest)[|first| + 1..] == Concat(lines[2..]);
        assert (first + rest)[..|first| + 1] == first + [LF];
      } else {
        SplitOfConcat(lines[1..]);
        assert (first + rest)[|first|..] == rest;
        assert (first + rest)[..|first|] == first;
      }
    }
  }
}
