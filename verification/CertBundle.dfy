/**
 * Splitting a bundle of certificates and stripping those that are distrusted
 * (scripts/distrust_certifi_roots.py).
 */
module CertBundle {
  import opened ByteLines

  type Der = Bytes

  const BEGIN_MARKER: Bytes := "-----BEGIN CERTIFICATE-----"
  const END_MARKER: Bytes := "-----END CERTIFICATE-----"
  const ANY_BEGIN: Bytes := "-----BEGIN "
  const ANY_END: Bytes := "-----END "

  datatype Error =
    | StartsWithMark | OpensInside | MarkerInside | StrayMarker | NotBase64 | NeverClosed | MarkersOutside
    | SourceFile | NoCertificate | NotGenuine | TooManyRoots | NothingKept

  datatype Result<T> = Ok(value: T) | Err(error: Error)

  datatype Decoded = Undecodable | Decoded(der: Der)

  /** What decides about a certificate: its decoding, its fingerprint, and whether it is distrusted. */
  datatype Trust = Trust(decode: Bytes -> Decoded, isDistrusted: Der -> bool, fingerprint: Der -> Bytes, maximum: nat)

  // ------------------------------------------------------------------ markers

  predicate StartsWith(data: Bytes, p: Bytes) {
    |p| <= |data| && data[..|p|] == p
  }

  /** How often a pattern that does not overlap itself occurs. */
  function Count(p: Bytes, data: Bytes): nat
    requires p != []
  {
    if |data| < |p| then
      0
    else if StartsWith(data, p) then
      1 + Count(p, data[|p|..])
    else
      Count(p, data[1..])
  }

  predicate HasMarker(body: Bytes) {
    Count(ANY_BEGIN, body) > 0 || Count(ANY_END, body) > 0
  }

  /** A pattern without the break that ends a line does not reach over it. */
  lemma {:induction false} CountOfBoth(p: Bytes, line: Bytes, rest: Bytes)
    requires p != [] && line != [] && line[|line| - 1] !in p
    ensures Count(p, line + rest) == Count(p, line) + Count(p, rest)
    decreases |line|
  {
    var all := line + rest;
    if |line| < |p| {
      if |all| >= |p| {
        assert p[|line| - 1] in p && all[..|p|][|line| - 1] == line[|line| - 1];
        assert all[1..] == line[1..] + rest;
        if |line| > 1 {
          CountOfBoth(p, line[1..], rest);
        } else {
          assert all[1..] == rest;
        }
      } else {
        assert |rest| < |p|;
      }
    } else {
      assert all[..|p|] == line[..|p|];
      if StartsWith(line, p) {
        assert |line| > |p| by {
          assert |line| == |p| ==> line == p;
        }
        assert all[|p|..] == line[|p|..] + rest;
        CountOfBoth(p, line[|p|..], rest);
      } else {
        assert all[1..] == line[1..] + rest;
        if |line| > 1 {
          CountOfBoth(p, line[1..], rest);
        } else {
          assert all[1..] == rest;
        }
      }
    }
  }

  lemma {:induction false} CountWithout(p: Bytes, data: Bytes, c: char)
    requires p != [] && c in p && c !in data
    ensures Count(p, data) == 0
    decreases |data|
  {
    if |data| >= |p| {
      var i :| 0 <= i < |p| && p[i] == c;
      assert data[..|p|][i] == data[i] && data[i] in data;
      CountWithout(p, data[1..], c);
    }
  }

  // ------------------------------------------------------------------ the parser

  /** A certificate with the lines before it. */
  datatype Entry = Entry(header: seq<Bytes>, block: seq<Bytes>, der: Der)

  /** What the loop keeps: entries so far, lines since the last one, and the block being read. */
  datatype State = State(entries: seq<Entry>, pending: seq<Bytes>, block: seq<Bytes>)

  const START: State := State([], [], [])

  /** The lines without their breaks, joined. */
  function JoinBodies(lines: seq<Bytes>): Bytes {
    if lines == [] then [] else JoinBodies(lines[..|lines| - 1]) + LineBody(lines[|lines| - 1])
  }

  /** One turn of the loop of split_entries. */
  function Step(trust: Trust, s: State, line: Bytes): Result<State> {
    var body := LineBody(line);
    if body == BEGIN_MARKER then
      if s.block != [] then Err(OpensInside) else Ok(s.(block := [line]))
    else if s.block != [] then
      if HasMarker(body) && body != END_MARKER then
        Err(MarkerInside)
      else if body == END_MARKER then
        match trust.decode(JoinBodies(s.block[1..]))
        case Undecodable => Err(NotBase64)
        case Decoded(der) => Ok(State(s.entries + [Entry(s.pending, s.block + [line], der)], [], []))
      else
        Ok(s.(block := s.block + [line]))
    else if HasMarker(body) then
      Err(StrayMarker)
    else
      Ok(s.(pending := s.pending + [line]))
  }

  function Run(trust: Trust, s: State, lines: seq<Bytes>): Result<State>
    decreases |lines|
  {
    if lines == [] then
      Ok(s)
    else
      match Step(trust, s, lines[0])
      case Err(error) => Err(error)
      case Ok(next) => Run(trust, next, lines[1..])
  }

  predicate StartsWithByteOrderMark(data: Bytes) {
    StartsWith(data, "\U{EF}\U{BB}\U{BF}") || StartsWith(data, "\U{FF}\U{FE}") || StartsWith(data, "\U{FE}\U{FF}")
  }

  /** split_entries; what is pending at the end is the trailer. */
  function Split(trust: Trust, data: Bytes): Result<State> {
    if StartsWithByteOrderMark(data) then
      Err(StartsWithMark)
    else
      match Run(trust, START, SplitLines(data))
      case Err(error) => Err(error)
      case Ok(s) =>
        if s.block != [] then
          Err(NeverClosed)
        else if Count(ANY_BEGIN, data) != |s.entries| || Count(ANY_END, data) != |s.entries| then
          Err(MarkersOutside)
        else
          Ok(s)
  }

  /** The loop of split_entries. */
  method SplitEntries(trust: Trust, data: Bytes) returns (r: Result<State>)
    ensures r == Split(trust, data)
  {
    if StartsWithByteOrderMark(data) {
      return Err(StartsWithMark);
    }
    var lines := SplitLines(data);
    var entries: seq<Entry> := [];
    var pending: seq<Bytes> := [];
    var block: seq<Bytes> := [];
    for i := 0 to |lines|
      invariant Run(trust, START, lines) == Run(trust, State(entries, pending, block), lines[i..])
    {
      var line := lines[i];
      var body := LineBody(line);
      assert lines[i..][1..] == lines[i + 1..];
      if body == BEGIN_MARKER {
        if block != [] {
          return Err(OpensInside);
        }
        block := [line];
      } else if block != [] {
        if HasMarker(body) && body != END_MARKER {
          return Err(MarkerInside);
        }
        if body == END_MARKER {
          match trust.decode(JoinBodies(block[1..])) {
            case Undecodable =>
              return Err(NotBase64);
            case Decoded(der) =>
              entries := entries + [Entry(pending, block + [line], der)];
              pending, block := [], [];
          }
        } else {
          block := block + [line];
        }
      } else {
        if HasMarker(body) {
          return Err(StrayMarker);
        }
        pending := pending + [line];
      }
    }
    if block != [] {
      return Err(NeverClosed);
    }
    if Count(ANY_BEGIN, data) != |entries| || Count(ANY_END, data) != |entries| {
      return Err(MarkersOutside);
    }
    return Ok(State(entries, pending, block));
  }

  // ------------------------------------------------------------------ nothing is lost

  function EntryLines(entries: seq<Entry>): seq<Bytes> {
    if entries == [] then
      []
    else
      EntryLines(entries[..|entries| - 1]) + (entries[|entries| - 1].header + entries[|entries| - 1].block)
  }

  /** All lines read so far. */
  function LinesOf(s: State): seq<Bytes> {
    EntryLines(s.entries) + s.pending + s.block
  }

  lemma StepKeepsLines(trust: Trust, s: State, line: Bytes)
    requires Step(trust, s, line).Ok?
    requires s.block == [] || LineBody(s.block[0]) == BEGIN_MARKER
    ensures LinesOf(Step(trust, s, line).value) == LinesOf(s) + [line]
    ensures var t := Step(trust, s, line).value; t.block == [] || LineBody(t.block[0]) == BEGIN_MARKER
  {
    var t := Step(trust, s, line).value;
    if |t.entries| > |s.entries| {
      assert t.entries[..|t.entries| - 1] == s.entries;
    }
  }

  lemma {:induction false} RunKeepsLines(trust: Trust, s: State, lines: seq<Bytes>)
    requires Run(trust, s, lines).Ok?
    requires s.block == [] || LineBody(s.block[0]) == BEGIN_MARKER
    ensures LinesOf(Run(trust, s, lines).value) == LinesOf(s) + lines
    decreases |lines|
  {
    if lines != [] {
      StepKeepsLines(trust, s, lines[0]);
      var t := Step(trust, s, lines[0]).value;
      RunKeepsLines(trust, t, lines[1..]);
      assert LinesOf(s) + [lines[0]] + lines[1..] == LinesOf(s) + lines;
    } else {
      assert LinesOf(s) + lines == LinesOf(s);
    }
  }

  function EntryText(entries: seq<Entry>): Bytes {
    if entries == [] then
      []
    else
      EntryText(entries[..|entries| - 1])
      + (Concat(entries[|entries| - 1].header) + Concat(entries[|entries| - 1].block))
  }

  lemma {:induction false} TextOfLines(entries: seq<Entry>)
    ensures Concat(EntryLines(entries)) == EntryText(entries)
  {
    if entries != [] {
      var before, last := entries[..|entries| - 1], entries[|entries| - 1];
      TextOfLines(before);
      ConcatOfBoth(EntryLines(before), last.header + last.block);
      ConcatOfBoth(last.header, last.block);
    }
  }

  /** Whatever split_entries accepts, headers, blocks and trailer put together are the input. */
  lemma SplitLosesNothing(trust: Trust, data: Bytes)
    requires Split(trust, data).Ok?
    ensures var s := Split(trust, data).value;
      && s.block == []
      && EntryLines(s.entries) + s.pending == SplitLines(data)
      && EntryText(s.entries) + Concat(s.pending) == data
  {
    var s := Split(trust, data).value;
    RunKeepsLines(trust, START, SplitLines(data));
    assert LinesOf(START) == [] && LinesOf(s) == EntryLines(s.entries) + s.pending;
    ConcatOfSplit(data);
    ConcatOfBoth(EntryLines(s.entries), s.pending);
    TextOfLines(s.entries);
  }

  // ------------------------------------------------------------------ the count of markers

  lemma {:induction false} BodyCounts(p: Bytes, line: Bytes)
    requires p != [] && CR !in p && LF !in p
    ensures Count(p, line) == Count(p, LineBody(line))
    decreases |line|
  {
    if line != [] && IsBreak(line[|line| - 1]) {
      var rest := line[..|line| - 1];
      BodyCounts(p, rest);
      DropBreak(p, rest, line[|line| - 1]);
      assert rest + [line[|line| - 1]] == line;
    }
  }

  lemma {:induction false} DropBreak(p: Bytes, data: Bytes, c: char)
    requires p != [] && c !in p
    ensures Count(p, data + [c]) == Count(p, data)
    decreases |data|
  {
    var all := data + [c];
    if |data| >= |p| {
      assert all[..|p|] == data[..|p|];
      if StartsWith(data, p) {
        assert all[|p|..] == data[|p|..] + [c];
        DropBreak(p, data[|p|..], c);
      } else {
        assert all[1..] == data[1..] + [c];
        DropBreak(p, data[1..], c);
      }
    } else if |all| == |p| {
      assert all[..|p|][|data|] == c && p[|data|] in p;
      assert Count(p, all[1..]) == 0;
    }
  }

  lemma OneBegin()
    ensures Count(ANY_BEGIN, BEGIN_MARKER) == 1
  {
    assert BEGIN_MARKER[..11] == ANY_BEGIN && BEGIN_MARKER[11..] == "CERTIFICATE-----";
    assert ANY_BEGIN[10] == ' ';
    CountWithout(ANY_BEGIN, "CERTIFICATE-----", ' ');
  }

  lemma NoEndIn()
    ensures Count(ANY_END, BEGIN_MARKER) == 0
  {
    assert ANY_END[6] == 'N' && ANY_END[7] == 'D';
    CountWithout(ANY_END, BEGIN_MARKER, 'D');
  }

  lemma OneEnd()
    ensures Count(ANY_END, END_MARKER) == 1
  {
    assert END_MARKER[..9] == ANY_END && END_MARKER[9..] == "CERTIFICATE-----";
    assert ANY_END[8] == ' ';
    CountWithout(ANY_END, "CERTIFICATE-----", ' ');
  }

  lemma NoBeginIn()
    ensures Count(ANY_BEGIN, END_MARKER) == 0
  {
    assert ANY_BEGIN[5] == 'B';
    CountWithout(ANY_BEGIN, END_MARKER, 'B');
  }

  lemma MarkersOf(line: Bytes)
    ensures LineBody(line) == BEGIN_MARKER ==> Count(ANY_BEGIN, line) == 1 && Count(ANY_END, line) == 0
    ensures LineBody(line) == END_MARKER ==> Count(ANY_BEGIN, line) == 0 && Count(ANY_END, line) == 1
    ensures !HasMarker(LineBody(line)) ==> Count(ANY_BEGIN, line) == 0 && Count(ANY_END, line) == 0
  {
    assert CR !in ANY_BEGIN && LF !in ANY_BEGIN && CR !in ANY_END && LF !in ANY_END;
    BodyCounts(ANY_BEGIN, line);
    BodyCounts(ANY_END, line);
    OneBegin();
    OneEnd();
    NoEndIn();
    NoBeginIn();
  }

  function Open(s: State): nat {
    if s.block == [] then 0 else 1
  }

  /** How entries and the open block change with the markers on a line. */
  lemma StepFollows(trust: Trust, s: State, line: Bytes, begins: nat, ends: nat)
    requires Step(trust, s, line).Ok?
    requires LineBody(line) == BEGIN_MARKER ==> begins == 1 && ends == 0
    requires LineBody(line) == END_MARKER ==> begins == 0 && ends == 1
    requires !HasMarker(LineBody(line)) ==> begins == 0 && ends == 0
    ensures var t := Step(trust, s, line).value;
      && |t.entries| + Open(t) == |s.entries| + Open(s) + begins
      && |t.entries| == |s.entries| + ends
  {
  }

  lemma StepCounts(trust: Trust, s: State, line: Bytes)
    requires Step(trust, s, line).Ok?
    ensures var t := Step(trust, s, line).value;
      && |t.entries| + Open(t) == |s.entries| + Open(s) + Count(ANY_BEGIN, line)
      && |t.entries| == |s.entries| + Count(ANY_END, line)
  {
    MarkersOf(line);
    StepFollows(trust, s, line, Count(ANY_BEGIN, line), Count(ANY_END, line));
  }

  lemma {:induction false} RunCounts(trust: Trust, s: State, lines: seq<Bytes>)
    requires Run(trust, s, lines).Ok? && AreLines(lines)
    ensures var t := Run(trust, s, lines).value;
      && |t.entries| + Open(t) == |s.entries| + Open(s) + Count(ANY_BEGIN, Concat(lines))
      && |t.entries| == |s.entries| + Count(ANY_END, Concat(lines))
    decreases |lines|
  {
    if lines != [] {
      StepCounts(trust, s, lines[0]);
      LinesAfter(lines, 1);
      RunCounts(trust, Step(trust, s, lines[0]).value, lines[1..]);
      if |lines| > 1 {
        CountOfBoth(ANY_BEGIN, lines[0], Concat(lines[1..]));
        CountOfBoth(ANY_END, lines[0], Concat(lines[1..]));
      } else {
        assert Concat(lines) == lines[0];
      }
    }
  }

  /** The final count of markers never refuses anything: the loop has seen them all. */
  lemma CountNeverRefuses(trust: Trust, data: Bytes)
    ensures Split(trust, data) != Err(MarkersOutside)
  {
    if Run(trust, START, SplitLines(data)).Ok? {
      SplitGivesLines(data);
      ConcatOfSplit(data);
      RunCounts(trust, START, SplitLines(data));
    }
    RunErrors(trust, START, SplitLines(data));
  }

  lemma {:induction false} RunErrors(trust: Trust, s: State, lines: seq<Bytes>)
    ensures Run(trust, s, lines) != Err(MarkersOutside)
    decreases |lines|
  {
    if lines != [] && Step(trust, s, lines[0]).Ok? {
      RunErrors(trust, Step(trust, s, lines[0]).value, lines[1..]);
    }
  }
}
