/**
 * Why a stripped bundle reads as its kept certificates, and stripping it again changes nothing
 * (scripts/distrust_certifi_roots.py, plan_strip).
 */
module CertStrip {
  import opened ByteLines
  import opened CertBundle

  // ------------------------------------------------------------------ entries read on their own

  predicate IsOutside(line: Bytes) {
    LineBody(line) != BEGIN_MARKER && !HasMarker(LineBody(line))
  }

  predicate IsInside(line: Bytes) {
    IsOutside(line) && LineBody(line) != END_MARKER
  }

  ghost predicate IsOpened(block: seq<Bytes>) {
    && block != [] && LineBody(block[0]) == BEGIN_MARKER
    && forall i :: 1 <= i < |block| ==> IsInside(block[i])
  }

  /** An entry as the loop builds it. */
  ghost predicate IsWhole(trust: Trust, e: Entry) {
    && (forall line :: line in e.header ==> IsOutside(line))
    && |e.block| >= 2 && IsOpened(e.block[..|e.block| - 1])
    && LineBody(e.block[|e.block| - 1]) == END_MARKER
    && trust.decode(JoinBodies(e.block[..|e.block| - 1][1..])) == Decoded(e.der)
  }

  ghost predicate IsWellRead(trust: Trust, s: State) {
    && (forall e :: e in s.entries ==> IsWhole(trust, e))
    && (forall line :: line in s.pending ==> IsOutside(line))
    && (s.block == [] || IsOpened(s.block))
  }

  lemma StepReadsWell(trust: Trust, s: State, line: Bytes)
    requires IsWellRead(trust, s) && Step(trust, s, line).Ok?
    ensures IsWellRead(trust, Step(trust, s, line).value)
  {
    var t := Step(trust, s, line).value;
    if |t.entries| > |s.entries| {
      var e := t.entries[|s.entries|];
      assert e.block[..|e.block| - 1] == s.block;
      assert IsWhole(trust, e);
    }
  }

  lemma {:induction false} RunReadsWell(trust: Trust, s: State, lines: seq<Bytes>)
    requires IsWellRead(trust, s) && Run(trust, s, lines).Ok?
    ensures IsWellRead(trust, Run(trust, s, lines).value)
    decreases |lines|
  {
    if lines != [] {
      StepReadsWell(trust, s, lines[0]);
      RunReadsWell(trust, Step(trust, s, lines[0]).value, lines[1..]);
    }
  }

  lemma {:induction false} RunOfBoth(trust: Trust, s: State, a: seq<Bytes>, b: seq<Bytes>)
    requires Run(trust, s, a).Ok?
    ensures Run(trust, s, a + b) == Run(trust, Run(trust, s, a).value, b)
    decreases |a|
  {
    if a == [] {
      assert a + b == b;
    } else {
      assert (a + b)[1..] == a[1..] + b;
      RunOfBoth(trust, Step(trust, s, a[0]).value, a[1..], b);
    }
  }

  lemma {:induction false} RunOutside(trust: Trust, s: State, lines: seq<Bytes>)
    requires s.block == [] && forall line :: line in lines ==> IsOutside(line)
    ensures Run(trust, s, lines) == Ok(s.(pending := s.pending + lines))
    decreases |lines|
  {
    if lines == [] {
      assert s.pending + lines == s.pending;
    } else {
      assert IsOutside(lines[0]);
      var t := s.(pending := s.pending + [lines[0]]);
      RunOutside(trust, t, lines[1..]);
      assert s.pending + [lines[0]] + lines[1..] == s.pending + lines;
    }
  }

  lemma {:induction false} RunInside(trust: Trust, s: State, lines: seq<Bytes>)
    requires s.block != [] && forall i :: 0 <= i < |lines| ==> IsInside(lines[i])
    ensures Run(trust, s, lines) == Ok(s.(block := s.block + lines))
    decreases |lines|
  {
    if lines == [] {
      assert s.block + lines == s.block;
    } else {
      assert IsInside(lines[0]);
      var t := s.(block := s.block + [lines[0]]);
      RunInside(trust, t, lines[1..]);
      assert s.block + [lines[0]] + lines[1..] == s.block + lines;
    }
  }

  lemma MarkersDiffer()
    ensures BEGIN_MARKER != END_MARKER
  {
    assert |BEGIN_MARKER| == 27 && |END_MARKER| == 25;
  }

  lemma RunBegun(trust: Trust, s: State, begun: seq<Bytes>)
    requires IsOpened(begun) && s.block == []
    ensures Run(trust, s, begun) == Ok(s.(block := begun))
  {
    assert begun == [begun[0]] + begun[1..];
    var t := s.(block := [begun[0]]);
    assert Step(trust, s, begun[0]) == Ok(t);
    RunInside(trust, t, begun[1..]);
  }

  lemma RunBlock(trust: Trust, s: State, e: Entry)
    requires IsWhole(trust, e) && s.block == [] && s.pending == e.header
    ensures Run(trust, s, e.block) == Ok(State(s.entries + [e], [], []))
  {
    var n := |e.block| - 1;
    var begun, end := e.block[..n], e.block[n];
    RunBegun(trust, s, begun);
    MarkersDiffer();
    var done := State(s.entries + [e], [], []);
    assert begun + [end] == e.block;
    assert Step(trust, s.(block := begun), end) == Ok(done);
    assert [end][1..] == [] && Run(trust, done, []) == Ok(done);
    RunOfBoth(trust, s, begun, [end]);
  }

  lemma RunEntry(trust: Trust, s: State, e: Entry)
    requires IsWhole(trust, e) && s.block == [] && s.pending == []
    ensures Run(trust, s, e.header + e.block) == Ok(State(s.entries + [e], [], []))
  {
    RunOutside(trust, s, e.header);
    assert s.pending + e.header == e.header;
    RunOfBoth(trust, s, e.header, e.block);
    RunBlock(trust, s.(pending := e.header), e);
  }

  /** The lines of whole entries and a trailer are read back as these entries and that trailer. */
  lemma RunEntries(trust: Trust, entries: seq<Entry>, trailer: seq<Bytes>)
    requires forall e :: e in entries ==> IsWhole(trust, e)
    requires forall line :: line in trailer ==> IsOutside(line)
    ensures Run(trust, START, EntryLines(entries) + trailer) == Ok(State(entries, trailer, []))
  {
    if entries == [] {
      assert EntryLines(entries) + trailer == trailer;
      RunOutside(trust, START, trailer);
      assert START.pending + trailer == trailer;
    } else {
      RunOneMoreEntry(trust, entries);
      RunOfBoth(trust, START, EntryLines(entries), trailer);
      RunOutside(trust, State(entries, [], []), trailer);
      assert [] + trailer == trailer;
    }
  }

  lemma {:induction false} RunOneMoreEntry(trust: Trust, entries: seq<Entry>)
    requires entries != [] && forall e :: e in entries ==> IsWhole(trust, e)
    ensures Run(trust, START, EntryLines(entries)) == Ok(State(entries, [], []))
    decreases |entries|
  {
    var before, e := entries[..|entries| - 1], entries[|entries| - 1];
    if before == [] {
      assert Run(trust, START, EntryLines(before)) == Ok(State(before, [], []));
    } else {
      RunOneMoreEntry(trust, before);
    }
    RunOfBoth(trust, START, EntryLines(before), e.header + e.block);
    RunEntry(trust, State(before, [], []), e);
    assert before + [e] == entries;
  }

  // ------------------------------------------------------------------ gluing changes no certificate

  /** Two readings with the same certificates and the same bytes of a certificate so far. */
  ghost predicate ReadsTheSame(s: State, t: State) {
    && |s.entries| == |t.entries|
    && (forall i :: 0 <= i < |s.entries| ==> s.entries[i].der == t.entries[i].der)
    && (s.block == [] <==> t.block == [])
    && (s.block != [] ==> JoinBodies(s.block[1..]) == JoinBodies(t.block[1..]))
  }

  ghost predicate SameResult(a: Result<State>, b: Result<State>) {
    if a.Ok? then b.Ok? && ReadsTheSame(a.value, b.value) else a == b
  }

  lemma JoinOneMore(block: seq<Bytes>, line: Bytes)
    requires block != []
    ensures JoinBodies((block + [line])[1..]) == JoinBodies(block[1..]) + LineBody(line)
  {
    assert (block + [line])[1..] == block[1..] + [line];
    assert (block[1..] + [line])[..|block| - 1] == block[1..];
  }

  lemma ClosesTheSame(s: State, t: State, a: Entry, b: Entry)
    requires ReadsTheSame(s, t) && a.der == b.der
    ensures ReadsTheSame(State(s.entries + [a], [], []), State(t.entries + [b], [], []))
  {
  }

  lemma StepInBlockReadsTheSame(trust: Trust, s: State, t: State, a: Bytes, b: Bytes)
    requires ReadsTheSame(s, t) && LineBody(a) == LineBody(b) && s.block != []
    ensures SameResult(Step(trust, s, a), Step(trust, t, b))
  {
    var body := LineBody(a);
    if body == END_MARKER && body != BEGIN_MARKER {
      var decoded := trust.decode(JoinBodies(s.block[1..]));
      if decoded.Decoded? {
        ClosesTheSame(s, t, Entry(s.pending, s.block + [a], decoded.der), Entry(t.pending, t.block + [b], decoded.der));
      }
    } else {
      JoinOneMore(s.block, a);
      JoinOneMore(t.block, b);
    }
  }

  lemma StepReadsTheSame(trust: Trust, s: State, t: State, a: Bytes, b: Bytes)
    requires ReadsTheSame(s, t) && LineBody(a) == LineBody(b)
    ensures SameResult(Step(trust, s, a), Step(trust, t, b))
  {
    if s.block != [] {
      StepInBlockReadsTheSame(trust, s, t, a, b);
    } else {
      assert [a][1..] == [b][1..];
    }
  }

  /** A blank line adds nothing to any certificate. */
  lemma BlankReadsNothing(trust: Trust, s: State, t: State)
    requires ReadsTheSame(s, t)
    ensures Step(trust, t, [LF]).Ok? && ReadsTheSame(s, Step(trust, t, [LF]).value)
  {
    assert LineBody([LF]) == LineBody([LF][..0]) == [];
    if t.block != [] {
      JoinOneMore(t.block, [LF]);
      assert JoinBodies(t.block[1..]) + [] == JoinBodies(t.block[1..]);
    }
  }

  lemma {:induction false} GluedReadsTheSame(trust: Trust, s: State, t: State, lines: seq<Bytes>)
    requires ReadsTheSame(s, t)
    ensures SameResult(Run(trust, s, Glue(lines)), Run(trust, t, lines))
    decreases |lines|
  {
    if |lines| >= 2 && EndsInCR(lines[0]) && lines[1] == [LF] {
      var first := lines[0] + [LF];
      assert first[..|lines[0]|] == lines[0];
      assert LineBody(first) == LineBody(lines[0]);
      StepReadsTheSame(trust, s, t, first, lines[0]);
      assert Glue(lines)[0] == first && Glue(lines)[1..] == Glue(lines[2..]);
      if Step(trust, t, lines[0]).Ok? {
        var s', t' := Step(trust, s, first).value, Step(trust, t, lines[0]).value;
        BlankReadsNothing(trust, s', t');
        assert lines[1..][0] == [LF] && lines[1..][1..] == lines[2..];
        GluedReadsTheSame(trust, s', Step(trust, t', [LF]).value, lines[2..]);
      }
    } else if lines != [] {
      assert Glue(lines)[0] == lines[0] && Glue(lines)[1..] == Glue(lines[1..]);
      StepReadsTheSame(trust, s, t, lines[0], lines[0]);
      if Step(trust, t, lines[0]).Ok? {
        GluedReadsTheSame(trust, Step(trust, s, lines[0]).value, Step(trust, t, lines[0]).value, lines[1..]);
      }
    }
  }

  // ------------------------------------------------------------------ what is kept

  function Kept(trust: Trust, entries: seq<Entry>): (kept: seq<Entry>) {
    if entries == [] then
      []
    else
      var e := entries[|entries| - 1];
      Kept(trust, entries[..|entries| - 1]) + if trust.isDistrusted(e.der) then [] else [e]
  }

  function Removed(trust: Trust, entries: seq<Entry>): (removed: seq<Der>)
    ensures |removed| <= |entries|
  {
    if entries == [] then
      []
    else
      var e := entries[|entries| - 1];
      Removed(trust, entries[..|entries| - 1]) + if trust.isDistrusted(e.der) then [e.der] else []
  }

  /** Exactly the entries that are not distrusted are kept. */
  lemma {:induction false} KeptMembers(trust: Trust, entries: seq<Entry>)
    ensures forall e :: e in Kept(trust, entries) <==> e in entries && !trust.isDistrusted(e.der)
  {
    if entries != [] {
      var before, e := entries[..|entries| - 1], entries[|entries| - 1];
      assert entries == before + [e];
      KeptMembers(trust, before);
    }
  }

  /** Every entry is kept or removed, and with nothing removed all are kept. */
  lemma {:induction false} KeptOrRemoved(trust: Trust, entries: seq<Entry>)
    ensures |Removed(trust, entries)| + |Kept(trust, entries)| == |entries|
    ensures Removed(trust, entries) == [] ==> Kept(trust, entries) == entries
  {
    if entries != [] {
      var before, e := entries[..|entries| - 1], entries[|entries| - 1];
      assert entries == before + [e];
      KeptOrRemoved(trust, before);
    }
  }

  lemma WithoutMiddle(a: seq<Bytes>, middle: seq<Bytes>, b: seq<Bytes>)
    requires AreLines(a + (middle + b)) && middle != []
    ensures AreLines(a + b)
  {
    var all, n := a + (middle + b), |middle|;
    assert forall i :: 0 <= i < |a| ==> (a + b)[i] == all[i];
    assert forall i :: |a| <= i < |a + b| ==> (a + b)[i] == all[i + n];
  }

  lemma LinesOfOneMore(before: seq<Entry>, e: Entry, after: seq<Bytes>)
    ensures EntryLines(before + [e]) + after == EntryLines(before) + ((e.header + e.block) + after)
  {
    assert (before + [e])[..|before|] == before;
  }

  lemma KeptOneMore(trust: Trust, before: seq<Entry>, e: Entry)
    ensures Kept(trust, before + [e]) == Kept(trust, before) + if trust.isDistrusted(e.der) then [] else [e]
  {
    assert (before + [e])[..|before|] == before;
  }

  lemma {:induction false} KeptAreLines(trust: Trust, entries: seq<Entry>, after: seq<Bytes>)
    requires AreLines(EntryLines(entries) + after)
    requires forall e :: e in entries ==> e.block != []
    ensures AreLines(EntryLines(Kept(trust, entries)) + after)
    decreases |entries|
  {
    if entries != [] {
      var before, e := entries[..|entries| - 1], entries[|entries| - 1];
      assert entries == before + [e];
      var lines := e.header + e.block;
      LinesOfOneMore(before, e, after);
      KeptOneMore(trust, before, e);
      assert forall x :: x in before ==> x in entries;
      if trust.isDistrusted(e.der) {
        WithoutMiddle(EntryLines(before), lines, after);
        KeptAreLines(trust, before, after);
        assert Kept(trust, before) + [] == Kept(trust, before);
      } else {
        KeptAreLines(trust, before, lines + after);
        LinesOfOneMore(Kept(trust, before), e, after);
      }
    }
  }

  /** The bytes a plan writes. */
  function Content(trust: Trust, s: State): Bytes {
    EntryText(Kept(trust, s.entries)) + Concat(s.pending)
  }

  function Ders(entries: seq<Entry>): seq<Der> {
    seq(|entries|, i requires 0 <= i < |entries| => entries[i].der)
  }

  lemma ContentIsKeptLines(trust: Trust, s: State)
    ensures Content(trust, s) == Concat(EntryLines(Kept(trust, s.entries)) + s.pending)
  {
    TextOfLines(Kept(trust, s.entries));
    ConcatOfBoth(EntryLines(Kept(trust, s.entries)), s.pending);
  }

  lemma AcceptedIsWellRead(trust: Trust, data: Bytes)
    requires Split(trust, data).Ok?
    ensures IsWellRead(trust, Split(trust, data).value)
    ensures AreLines(EntryLines(Kept(trust, Split(trust, data).value.entries)) + Split(trust, data).value.pending)
  {
    var s := Split(trust, data).value;
    RunReadsWell(trust, START, SplitLines(data));
    SplitLosesNothing(trust, data);
    SplitGivesLines(data);
    KeptAreLines(trust, s.entries, s.pending);
  }

  lemma KeptLinesRead(trust: Trust, s: State, content: Bytes)
    requires IsWellRead(trust, s)
    requires AreLines(EntryLines(Kept(trust, s.entries)) + s.pending)
    requires content == Concat(EntryLines(Kept(trust, s.entries)) + s.pending)
    ensures SameResult(Run(trust, START, SplitLines(content)), Ok(State(Kept(trust, s.entries), s.pending, [])))
  {
    var kept := Kept(trust, s.entries);
    var lines := EntryLines(kept) + s.pending;
    KeptMembers(trust, s.entries);
    RunEntries(trust, kept, s.pending);
    SplitOfConcat(lines);
    GluedReadsTheSame(trust, START, START, lines);
  }

  /** Bytes whose lines read as a finished state are accepted unless they start with a byte order mark. */
  lemma ReadIsAccepted(trust: Trust, content: Bytes, s: State)
    requires s.block == [] && SameResult(Run(trust, START, SplitLines(content)), Ok(s))
    ensures Split(trust, content).Ok? <==> !StartsWithByteOrderMark(content)
    ensures StartsWithByteOrderMark(content) ==> Split(trust, content) == Err(StartsWithMark)
    ensures Split(trust, content).Ok? ==> Ders(Split(trust, content).value.entries) == Ders(s.entries)
  {
    CountNeverRefuses(trust, content);
  }

  /**
   * For every bundle that is accepted, genuine or not: what remains after stripping is
   * accepted exactly when it does not start with a byte order mark, and then holds exactly
   * the kept certificates in their order.
   */
  lemma ContentReadsAsKept(trust: Trust, data: Bytes)
    requires Split(trust, data).Ok?
    ensures var s := Split(trust, data).value;
      var again := Split(trust, Content(trust, s));
      && (again.Ok? <==> !StartsWithByteOrderMark(Content(trust, s)))
      && (again.Ok? ==> Ders(again.value.entries) == Ders(Kept(trust, s.entries)))
      && (again.Err? ==> again.error == StartsWithMark)
  {
    AcceptedIsWellRead(trust, data);
    WellReadContent(trust, Split(trust, data).value);
  }

  lemma WellReadContent(trust: Trust, s: State)
    requires IsWellRead(trust, s) && AreLines(EntryLines(Kept(trust, s.entries)) + s.pending)
    ensures var again := Split(trust, Content(trust, s));
      && (again.Ok? <==> !StartsWithByteOrderMark(Content(trust, s)))
      && (again.Ok? ==> Ders(again.value.entries) == Ders(Kept(trust, s.entries)))
      && (again.Err? ==> again.error == StartsWithMark)
  {
    var content := Content(trust, s);
    ContentIsKeptLines(trust, s);
    KeptLinesRead(trust, s, content);
    ReadIsAccepted(trust, content, State(Kept(trust, s.entries), s.pending, []));
  }

  // ------------------------------------------------------------------ genuine bundles

  predicate IsSpace(c: char) {
    c == ' ' || c == '\t' || c == LF || c == CR || c == '\U{0B}' || c == '\U{0C}'
  }

  predicate IsBlank(body: Bytes) {
    forall i :: 0 <= i < |body| ==> IsSpace(body[i])
  }

  /** What may stand outside the blocks of a genuine bundle. */
  predicate IsAllowed(line: Bytes) {
    var body := LineBody(line);
    IsBlank(body) || body[0] == '#'
  }

  predicate IsGenuineFrom(inside: bool, lines: seq<Bytes>)
    decreases |lines|
  {
    lines == [] ||
    var body := LineBody(lines[0]);
    if body == BEGIN_MARKER then
      IsGenuineFrom(true, lines[1..])
    else if body == END_MARKER then
      IsGenuineFrom(false, lines[1..])
    else
      (inside || IsAllowed(lines[0])) && IsGenuineFrom(inside, lines[1..])
  }

  predicate IsGenuine(data: Bytes) {
    IsGenuineFrom(false, SplitLines(data))
  }

  datatype Foreign = NoForeign | Foreign(number: nat, body: Bytes)

  /** first_foreign_line. */
  method FirstForeignLine(data: Bytes) returns (found: Foreign)
    ensures found.NoForeign? <==> IsGenuine(data)
    ensures found.Foreign? ==>
              && 1 <= found.number <= |SplitLines(data)|
              && found.body == LineBody(SplitLines(data)[found.number - 1])
              && !IsAllowed(SplitLines(data)[found.number - 1])
  {
    var lines := SplitLines(data);
    var inside := false;
    for i := 0 to |lines|
      invariant IsGenuine(data) == IsGenuineFrom(inside, lines[i..])
    {
      assert lines[i..][1..] == lines[i + 1..];
      var body := LineBody(lines[i]);
      if body == BEGIN_MARKER {
        inside := true;
      } else if body == END_MARKER {
        inside := false;
      } else if !inside && !IsBlank(body) && body[0] != '#' {
        return Foreign(i + 1, body);
      }
    }
    return NoForeign;
  }

  ghost predicate OnlyAllowedOutside(s: State) {
    && (forall line :: line in s.pending ==> IsAllowed(line))
    && (forall e, line :: e in s.entries && line in e.header ==> IsAllowed(line))
  }

  lemma {:induction false} GenuineHeaders(trust: Trust, s: State, lines: seq<Bytes>)
    requires OnlyAllowedOutside(s) && Run(trust, s, lines).Ok? && IsGenuineFrom(s.block != [], lines)
    ensures OnlyAllowedOutside(Run(trust, s, lines).value)
    decreases |lines|
  {
    if lines != [] {
      EndHasMarker();
      MarkersDiffer();
      var t := Step(trust, s, lines[0]).value;
      assert OnlyAllowedOutside(t) && IsGenuineFrom(t.block != [], lines[1..]);
      GenuineHeaders(trust, t, lines[1..]);
    }
  }

  lemma EndHasMarker()
    ensures HasMarker(END_MARKER)
  {
    OneEnd();
  }

  lemma {:induction false} OnlyBreaks(line: Bytes)
    requires line != [] && LineBody(line) == []
    ensures IsBreak(line[0])
  {
    if |line| > 1 {
      OnlyBreaks(line[..|line| - 1]);
    }
  }

  predicate StartsPlainly(data: Bytes) {
    data != [] && (IsSpace(data[0]) || data[0] == '#' || data[0] == '-')
  }

  lemma PlainIsNoMark(data: Bytes)
    requires StartsPlainly(data)
    ensures !StartsWithByteOrderMark(data)
  {
    assert forall p: Bytes :: p != [] && StartsWith(data, p) ==> data[..|p|][0] == p[0] == data[0];
  }

  lemma AllowedStartsPlainly(line: Bytes)
    requires line != [] && (IsAllowed(line) || LineBody(line) == BEGIN_MARKER)
    ensures StartsPlainly(line)
  {
    var body := LineBody(line);
    if body == [] {
      OnlyBreaks(line);
    } else {
      assert body[0] == line[0];
      assert BEGIN_MARKER[0] == '-';
    }
  }

  lemma {:induction false} FirstLineOf(entries: seq<Entry>)
    requires entries != [] && forall e :: e in entries ==> e.block != []
    ensures EntryLines(entries) != []
    ensures EntryLines(entries)[0] == if entries[0].header != [] then entries[0].header[0] else entries[0].block[0]
    decreases |entries|
  {
    var before, last := entries[..|entries| - 1], entries[|entries| - 1];
    assert last in entries && EntryLines(entries) == EntryLines(before) + (last.header + last.block);
    if before == [] {
      assert EntryLines(before) == [] && EntryLines(entries) == last.header + last.block;
    } else {
      assert forall e :: e in before ==> e in entries;
      FirstLineOf(before);
    }
  }

  /** A stripped genuine bundle never starts with a byte order mark. */
  lemma GenuineHasNoMark(trust: Trust, data: Bytes)
    requires Split(trust, data).Ok? && IsGenuine(data) && Kept(trust, Split(trust, data).value.entries) != []
    ensures !StartsWithByteOrderMark(Content(trust, Split(trust, data).value))
  {
    var s := Split(trust, data).value;
    AcceptedIsWellRead(trust, data);
    GenuineHeaders(trust, START, SplitLines(data));
    ContentIsKeptLines(trust, s);
    var kept := Kept(trust, s.entries);
    var lines := EntryLines(kept) + s.pending;
    KeptMembers(trust, s.entries);
    assert kept[0] in kept && IsWhole(trust, kept[0]);
    FirstLineOf(kept);
    assert IsLine(lines[0]);
    AllowedStartsPlainly(lines[0]);
    assert Concat(lines)[0] == lines[0][0];
    PlainIsNoMark(Concat(lines));
  }

  // ------------------------------------------------------------------ the plan

  datatype Plan = Plan(content: Bytes, expected: nat, removed: seq<Der>)

  function Fingerprints(trust: Trust, removed: seq<Der>): set<Bytes> {
    set der | der in removed :: trust.fingerprint(der)
  }

  /** plan_strip once the bundle is read; `foreign` says that lines that do not belong forbid any removal. */
  function PlanOf(trust: Trust, s: State, foreign: bool): Result<Plan> {
    var kept, removed := Kept(trust, s.entries), Removed(trust, s.entries);
    if s.entries == [] then
      Err(NoCertificate)
    else if removed != [] && foreign then
      Err(NotGenuine)
    else if |Fingerprints(trust, removed)| > trust.maximum then
      Err(TooManyRoots)
    else if removed != [] && kept == [] then
      Err(NothingKept)
    else
      Ok(Plan(Content(trust, s), |s.entries| - |removed|, removed))
  }

  /** plan_strip on the bytes of a file; `isSource` says that its name is of Python source. */
  function PlanFor(trust: Trust, data: Bytes, isSource: bool, genuineOnly: bool): Result<Plan> {
    if genuineOnly && isSource then
      Err(SourceFile)
    else
      match Split(trust, data)
      case Err(error) => Err(error)
      case Ok(s) => PlanOf(trust, s, genuineOnly && !IsGenuine(data))
  }

  lemma RemovedOneMore(trust: Trust, before: seq<Entry>, e: Entry)
    ensures Removed(trust, before + [e]) == Removed(trust, before) + if trust.isDistrusted(e.der) then [e.der] else []
  {
    assert (before + [e])[..|before|] == before;
  }

  lemma FingerprintsOneMore(trust: Trust, removed: seq<Der>, der: Der)
    ensures Fingerprints(trust, removed + [der]) == Fingerprints(trust, removed) + {trust.fingerprint(der)}
  {
    var more := removed + [der];
    assert more[|removed|] == der;
    forall f | f in Fingerprints(trust, removed)
      ensures f in Fingerprints(trust, more)
    {
      var d :| d in removed && trust.fingerprint(d) == f;
      assert d in more;
    }
  }

  /** What the loop of plan_strip has made of the entries so far. */
  ghost predicate IsSorted(trust: Trust, entries: seq<Entry>, kept: seq<Entry>, removed: seq<Der>, fingerprints: set<Bytes>) {
    kept == Kept(trust, entries) && removed == Removed(trust, entries) && fingerprints == Fingerprints(trust, removed)
  }

  lemma NothingSorted(trust: Trust)
    ensures IsSorted(trust, [], [], [], {})
  {
  }

  lemma SortOneMore(trust: Trust, entries: seq<Entry>, kept: seq<Entry>, removed: seq<Der>, fingerprints: set<Bytes>, e: Entry)
    requires IsSorted(trust, entries, kept, removed, fingerprints)
    ensures trust.isDistrusted(e.der) ==>
              IsSorted(trust, entries + [e], kept, removed + [e.der], fingerprints + {trust.fingerprint(e.der)})
    ensures !trust.isDistrusted(e.der) ==> IsSorted(trust, entries + [e], kept + [e], removed, fingerprints)
  {
    KeptOneMore(trust, entries, e);
    RemovedOneMore(trust, entries, e);
    FingerprintsOneMore(trust, removed, e.der);
    assert kept + [] == kept && removed + [] == removed;
  }

  /** The loop of plan_strip. */
  method SortOut(trust: Trust, entries: seq<Entry>)
    returns (kept: seq<Entry>, removed: seq<Der>, fingerprints: set<Bytes>)
    ensures IsSorted(trust, entries, kept, removed, fingerprints)
  {
    kept, removed, fingerprints := [], [], {};
    NothingSorted(trust);
    for i := 0 to |entries|
      invariant IsSorted(trust, entries[..i], kept, removed, fingerprints)
    {
      var e := entries[i];
      SortOneMore(trust, entries[..i], kept, removed, fingerprints, e);
      assert entries[..i + 1] == entries[..i] + [e];
      if trust.isDistrusted(e.der) {
        fingerprints := fingerprints + {trust.fingerprint(e.der)};
        removed := removed + [e.der];
      } else {
        kept := kept + [e];
      }
    }
    assert entries[..|entries|] == entries;
  }

  method PlanStrip(trust: Trust, data: Bytes, isSource: bool, genuineOnly: bool) returns (r: Result<Plan>)
    ensures r == PlanFor(trust, data, isSource, genuineOnly)
  {
    if genuineOnly && isSource {
      return Err(SourceFile);
    }
    var split := SplitEntries(trust, data);
    if split.Err? {
      return Err(split.error);
    }
    var entries := split.value.entries;
    if entries == [] {
      return Err(NoCertificate);
    }
    var kept, removed, fingerprints := SortOut(trust, entries);
    if removed != [] && genuineOnly {
      var foreign := FirstForeignLine(data);
      if foreign.Foreign? {
        return Err(NotGenuine);
      }
    }
    if |fingerprints| > trust.maximum {
      return Err(TooManyRoots);
    }
    KeptOrRemoved(trust, entries);
    if removed != [] && (kept == [] || |kept| != |entries| - |removed|) {
      return Err(NothingKept);
    }
    return Ok(Plan(EntryText(kept) + Concat(split.value.pending), |entries| - |removed|, removed));
  }

  // ------------------------------------------------------------------ what a plan promises

  /** Bytes read as `s`, with nothing to remove, keep their content. */
  lemma NothingRemovedKeeps(trust: Trust, data: Bytes, s: State)
    requires Split(trust, data) == Ok(s) && Removed(trust, s.entries) == []
    ensures Content(trust, s) == data
  {
    KeptOrRemoved(trust, s.entries);
    SplitLosesNothing(trust, data);
  }

  ghost function DistrustedPrints(trust: Trust, entries: seq<Entry>): set<Bytes> {
    set e | e in entries && trust.isDistrusted(e.der) :: trust.fingerprint(e.der)
  }

  lemma {:induction false} RemovedPrints(trust: Trust, entries: seq<Entry>)
    ensures Fingerprints(trust, Removed(trust, entries)) == DistrustedPrints(trust, entries)
    ensures Removed(trust, entries) == [] <==> forall e :: e in entries ==> !trust.isDistrusted(e.der)
  {
    if entries != [] {
      var before, e := entries[..|entries| - 1], entries[|entries| - 1];
      assert entries == before + [e];
      RemovedPrints(trust, before);
      FingerprintsOneMore(trust, Removed(trust, before), e.der);
      var prints, less := DistrustedPrints(trust, entries), DistrustedPrints(trust, before);
      forall f
        ensures f in prints <==> f in less || (trust.isDistrusted(e.der) && f == trust.fingerprint(e.der))
      {
        if x :| x in before && trust.isDistrusted(x.der) && trust.fingerprint(x.der) == f {
          assert x in entries;
        }
        if trust.isDistrusted(e.der) && f == trust.fingerprint(e.der) {
          assert e in entries;
        }
      }
      assert Removed(trust, entries) == Removed(trust, before) + if trust.isDistrusted(e.der) then [e.der] else [];
    }
  }

  /**
   * A bundle is planned exactly when it holds a certificate and either none is distrusted, or
   * one is not, every line belongs, and the distrusted roots are not more than are known.
   */
  lemma PlannedExactlyWhen(trust: Trust, s: State, foreign: bool)
    ensures PlanOf(trust, s, foreign).Ok? <==>
              && s.entries != []
              && ((forall e :: e in s.entries ==> !trust.isDistrusted(e.der))
                  || (&& !foreign && |DistrustedPrints(trust, s.entries)| <= trust.maximum
                      && exists e :: e in s.entries && !trust.isDistrusted(e.der)))
  {
    RemovedPrints(trust, s.entries);
    KeptMembers(trust, s.entries);
    KeptOrRemoved(trust, s.entries);
    if e :| e in s.entries && !trust.isDistrusted(e.der) {
      assert e in Kept(trust, s.entries);
    }
    if Kept(trust, s.entries) != [] {
      assert Kept(trust, s.entries)[0] in Kept(trust, s.entries);
    }
  }

  lemma PlanOfRemoved(trust: Trust, s: State, foreign: bool)
    requires PlanOf(trust, s, foreign).Ok?
    ensures PlanOf(trust, s, foreign).value == Plan(Content(trust, s), |s.entries| - |Removed(trust, s.entries)|, Removed(trust, s.entries))
    ensures s.entries != [] && (Removed(trust, s.entries) != [] ==> !foreign && Kept(trust, s.entries) != [])
  {
  }

  /** A plan with nothing to remove writes the file as it is. */
  lemma NothingToRemove(trust: Trust, data: Bytes, isSource: bool, genuineOnly: bool, s: State)
    requires Split(trust, data) == Ok(s) && PlanFor(trust, data, isSource, genuineOnly).Ok?
    requires PlanFor(trust, data, isSource, genuineOnly).value.removed == []
    ensures PlanFor(trust, data, isSource, genuineOnly).value.content == data
  {
    PlanOfRemoved(trust, s, genuineOnly && !IsGenuine(data));
    NothingRemovedKeeps(trust, data, s);
  }

  /** The planned content of a genuine bundle holds the kept certificates in order, and no distrusted one. */
  lemma PlannedContentIsClean(trust: Trust, data: Bytes)
    requires PlanFor(trust, data, false, true).Ok?
    ensures var plan := PlanFor(trust, data, false, true).value;
      var again := Split(trust, plan.content);
      && again.Ok?
      && |again.value.entries| == plan.expected > 0
      && Ders(again.value.entries) == Ders(Kept(trust, Split(trust, data).value.entries))
      && forall e :: e in again.value.entries ==> !trust.isDistrusted(e.der)
  {
    var plan := PlanFor(trust, data, false, true).value;
    var s := Split(trust, data).value;
    var kept := Kept(trust, s.entries);
    KeptMembers(trust, s.entries);
    KeptOrRemoved(trust, s.entries);
    if plan.removed == [] {
      NothingToRemove(trust, data, false, true, s);
    } else {
      GenuineHasNoMark(trust, data);
      ContentReadsAsKept(trust, data);
    }
    SameDersAreClean(trust, Split(trust, plan.content).value.entries, kept);
  }

  lemma SameDersAreClean(trust: Trust, found: seq<Entry>, kept: seq<Entry>)
    requires Ders(found) == Ders(kept) && forall e :: e in kept ==> !trust.isDistrusted(e.der)
    ensures |found| == |kept| && forall e :: e in found ==> !trust.isDistrusted(e.der)
  {
    assert |Ders(found)| == |found| && |Ders(kept)| == |kept|;
    forall e | e in found
      ensures !trust.isDistrusted(e.der)
    {
      var i :| 0 <= i < |found| && found[i] == e;
      assert Ders(found)[i] == Ders(kept)[i] == kept[i].der;
      assert kept[i] in kept;
    }
  }

  lemma {:induction false} NoneRemoved(trust: Trust, entries: seq<Entry>)
    requires forall e :: e in entries ==> !trust.isDistrusted(e.der)
    ensures Removed(trust, entries) == []
  {
    if entries != [] {
      assert entries[|entries| - 1] in entries;
      assert forall e :: e in entries[..|entries| - 1] ==> e in entries;
      NoneRemoved(trust, entries[..|entries| - 1]);
    }
  }

  lemma NoFingerprints(trust: Trust)
    ensures |Fingerprints(trust, [])| == 0
  {
    assert Fingerprints(trust, []) == {};
  }

  /** A bundle without a distrusted certificate, read as `s`, keeps its bytes. */
  lemma CleanContent(trust: Trust, data: Bytes, s: State)
    requires Split(trust, data) == Ok(s) && forall e :: e in s.entries ==> !trust.isDistrusted(e.der)
    ensures Removed(trust, s.entries) == [] && Content(trust, s) == data
  {
    NoneRemoved(trust, s.entries);
    NothingRemovedKeeps(trust, data, s);
  }

  lemma CleanPlanOf(trust: Trust, s: State, foreign: bool)
    requires s.entries != [] && Removed(trust, s.entries) == []
    ensures PlanOf(trust, s, foreign) == Ok(Plan(Content(trust, s), |s.entries|, []))
  {
    NoFingerprints(trust);
  }

  lemma CleanPlan(trust: Trust, data: Bytes, genuineOnly: bool)
    requires Split(trust, data).Ok? && Split(trust, data).value.entries != []
    requires forall e :: e in Split(trust, data).value.entries ==> !trust.isDistrusted(e.der)
    ensures PlanFor(trust, data, false, genuineOnly) == Ok(Plan(data, |Split(trust, data).value.entries|, []))
  {
    var s := Split(trust, data).value;
    CleanContent(trust, data, s);
    CleanPlanOf(trust, s, genuineOnly && !IsGenuine(data));
  }

  /** Planning to strip what was planned removes nothing and writes the same bytes. */
  lemma StrippingTwiceIsStrippingOnce(trust: Trust, data: Bytes)
    requires PlanFor(trust, data, false, true).Ok?
    ensures var plan := PlanFor(trust, data, false, true).value;
      PlanFor(trust, plan.content, false, true) == Ok(Plan(plan.content, plan.expected, []))
  {
    PlannedContentIsClean(trust, data);
    CleanPlan(trust, PlanFor(trust, data, false, true).value.content, true);
  }

  /** apply_plan, as the bytes the file then holds. */
  function Applied(data: Bytes, plan: Plan): Bytes {
    if plan.removed == [] then data else plan.content
  }

  /** Whether or not anything is removed, the file ends up with the planned content. */
  lemma AppliedIsPlanned(trust: Trust, data: Bytes, isSource: bool, genuineOnly: bool)
    requires PlanFor(trust, data, isSource, genuineOnly).Ok?
    ensures var plan := PlanFor(trust, data, isSource, genuineOnly).value; Applied(data, plan) == plan.content
  {
    if PlanFor(trust, data, isSource, genuineOnly).value.removed == [] {
      NothingToRemove(trust, data, isSource, genuineOnly, Split(trust, data).value);
    }
  }

  // ------------------------------------------------------------------ a bundle that is refused once stripped

  const BOM: Bytes := "\U{EF}\U{BB}\U{BF}"

  /** What may stand in a block: a line without breaks and dashes, as base64 has none. */
  predicate IsPlainText(text: Bytes) {
    text != [] && CR !in text && LF !in text && '-' !in text
  }

  function BlockOf(body: Bytes): seq<Bytes> {
    [BEGIN_MARKER + [LF], body + [LF], END_MARKER + [LF]]
  }

  lemma BodyOfLine(text: Bytes)
    requires text != [] && !IsBreak(text[|text| - 1])
    ensures LineBody(text + [LF]) == text
  {
    assert (text + [LF])[..|text|] == text;
  }

  lemma {:induction false} TextIsALine(text: Bytes)
    requires CR !in text && LF !in text
    ensures IsLine(text + [LF]) && IsBroken(text + [LF])
    decreases |text|
  {
    if text != [] {
      assert text[0] in text && forall c :: c in text[1..] ==> c in text;
      TextIsALine(text[1..]);
      assert (text + [LF])[1..] == text[1..] + [LF];
    }
  }

  lemma PlainHasNoMarker(text: Bytes)
    requires '-' !in text
    ensures !HasMarker(text)
  {
    assert ANY_BEGIN[0] == '-' && ANY_END[0] == '-';
    CountWithout(ANY_BEGIN, text, '-');
    CountWithout(ANY_END, text, '-');
  }

  lemma MarkerBodies()
    ensures LineBody(BEGIN_MARKER + [LF]) == BEGIN_MARKER && LineBody(END_MARKER + [LF]) == END_MARKER
  {
    assert BEGIN_MARKER[26] == '-' && END_MARKER[24] == '-';
    BodyOfLine(BEGIN_MARKER);
    BodyOfLine(END_MARKER);
  }

  /** A plain line may stand outside a block, and inside one. */
  lemma PlainIsInside(text: Bytes)
    requires IsPlainText(text)
    ensures LineBody(text + [LF]) == text && IsInside(text + [LF])
  {
    assert text[|text| - 1] in text && text[0] in text;
    BodyOfLine(text);
    PlainHasNoMarker(text);
    assert BEGIN_MARKER[0] == '-' && END_MARKER[0] == '-';
  }

  lemma BlockIsWhole(trust: Trust, header: seq<Bytes>, body: Bytes, der: Der)
    requires IsPlainText(body) && trust.decode(body) == Decoded(der)
    requires forall line :: line in header ==> IsOutside(line)
    ensures IsWhole(trust, Entry(header, BlockOf(body), der))
  {
    var block := BlockOf(body);
    MarkerBodies();
    PlainIsInside(body);
    var begun := block[..2];
    var e := Entry(header, block, der);
    assert e.block[..|e.block| - 1] == begun && begun[1..] == [block[1]];
    OneBody(block[1]);
    assert IsOpened(begun) && LineBody(block[2]) == END_MARKER;
  }

  lemma OneBody(line: Bytes)
    ensures JoinBodies([line]) == LineBody(line)
  {
    assert [line][..0] == [] && [] + LineBody(line) == LineBody(line);
  }

  lemma MarkersAreLines()
    ensures IsLine(BEGIN_MARKER + [LF]) && IsBroken(BEGIN_MARKER + [LF])
    ensures IsLine(END_MARKER + [LF]) && IsBroken(END_MARKER + [LF])
  {
    TextIsALine(BEGIN_MARKER);
    TextIsALine(END_MARKER);
  }

  lemma {:induction false} NothingToGlue(lines: seq<Bytes>)
    requires forall i :: 0 <= i < |lines| ==> lines[i] != [] && lines[i][|lines[i]| - 1] == LF
    ensures Glue(lines) == lines
    decreases |lines|
  {
    if |lines| >= 2 {
      NothingToGlue(lines[1..]);
      assert [lines[0]] + lines[1..] == lines;
    }
  }

  ghost predicate AreEndedByLF(lines: seq<Bytes>) {
    AreLines(lines) && forall i :: 0 <= i < |lines| ==> lines[i] != [] && lines[i][|lines[i]| - 1] == LF
  }

  /** Lines of whole entries, each ended by LF, are accepted unless they start with a byte order mark. */
  lemma LinesAreAccepted(trust: Trust, entries: seq<Entry>)
    requires forall e :: e in entries ==> IsWhole(trust, e)
    requires AreEndedByLF(EntryLines(entries))
    requires !StartsWithByteOrderMark(Concat(EntryLines(entries)))
    ensures Split(trust, Concat(EntryLines(entries))) == Ok(State(entries, [], []))
  {
    var lines := EntryLines(entries);
    RunEntries(trust, entries, []);
    assert lines + [] == lines;
    SplitOfConcat(lines);
    NothingToGlue(lines);
    CountNeverRefuses(trust, Concat(lines));
  }

  function Marked(a: Bytes, b: Bytes, bad: Der, good: Der): seq<Entry> {
    [Entry([], BlockOf(a), bad), Entry([BOM + [LF]], BlockOf(b), good)]
  }

  lemma BomIsOutside()
    ensures IsPlainText(BOM) && IsOutside(BOM + [LF])
  {
    assert |BOM| == 3;
    PlainIsInside(BOM);
  }

  lemma MarkedAreWhole(trust: Trust, a: Bytes, b: Bytes, bad: Der, good: Der)
    requires IsPlainText(a) && IsPlainText(b)
    requires trust.decode(a) == Decoded(bad) && trust.decode(b) == Decoded(good)
    ensures forall e :: e in Marked(a, b, bad, good) ==> IsWhole(trust, e)
  {
    BlockIsWhole(trust, [], a, bad);
    BomIsOutside();
    BlockIsWhole(trust, [BOM + [LF]], b, good);
  }

  lemma LinesOfTwo(x: Entry, y: Entry)
    ensures EntryLines([x, y]) == x.header + x.block + (y.header + y.block)
  {
    assert [x, y][..1] == [x] && [x][..0] == [];
    assert EntryLines([x]) == [] + (x.header + x.block);
  }

  lemma MarkedLines(a: Bytes, b: Bytes)
    requires IsPlainText(a) && IsPlainText(b)
    ensures var lines := [] + BlockOf(a) + ([BOM + [LF]] + BlockOf(b));
      AreEndedByLF(lines) && StartsPlainly(Concat(lines))
  {
    MarkersAreLines();
    TextIsALine(a);
    TextIsALine(b);
    BomIsOutside();
    TextIsALine(BOM);
    var lines := [] + BlockOf(a) + ([BOM + [LF]] + BlockOf(b));
    assert lines[0] == BEGIN_MARKER + [LF] && BEGIN_MARKER[0] == '-';
  }

  lemma KeptOfTwo(trust: Trust, x: Entry, y: Entry)
    requires trust.isDistrusted(x.der) && !trust.isDistrusted(y.der)
    ensures Kept(trust, [x, y]) == [y]
  {
    KeptOneMore(trust, [], x);
    KeptOneMore(trust, [x], y);
    assert [] + [x] == [x] && [x] + [y] == [x, y];
  }

  /**
   * With the genuineness test off, a distrusted certificate before a kept one whose header
   * starts with a byte order mark, whatever the two base64 lines are: the bundle is accepted,
   * and what remains of it is refused.
   */
  lemma StrippedBundleCanBeRefused(trust: Trust, a: Bytes, b: Bytes, bad: Der, good: Der) returns (data: Bytes)
    requires IsPlainText(a) && trust.decode(a) == Decoded(bad) && trust.isDistrusted(bad)
    requires IsPlainText(b) && trust.decode(b) == Decoded(good) && !trust.isDistrusted(good)
    ensures Split(trust, data).Ok?
    ensures Split(trust, Content(trust, Split(trust, data).value)) == Err(StartsWithMark)
  {
    var entries := Marked(a, b, bad, good);
    MarkedAreWhole(trust, a, b, bad, good);
    LinesOfTwo(entries[0], entries[1]);
    MarkedLines(a, b);
    data := Concat(EntryLines(entries));
    PlainIsNoMark(data);
    LinesAreAccepted(trust, entries);
    KeptOfTwo(trust, entries[0], entries[1]);
    MarkRemains(entries[1]);
  }

  lemma MarkRemains(e: Entry)
    requires e.header == [BOM + [LF]]
    ensures StartsWithByteOrderMark(EntryText([e]) + [])
  {
    var rest := [LF] + Concat(e.block);
    assert [e][..0] == [] && e.header[1..] == [];
    assert Concat(e.header) == BOM + [LF];
    assert EntryText([e]) + [] == BOM + rest;
    assert |BOM| == 3 && (BOM + rest)[..3] == BOM;
  }
}
