/**
 * The buffer of chart history rows that PostgreSQL writes are coalesced in
 * (app/jobs/record_usages.py).
 */
module HistoryBuffer {
  import opened NatSets

  type Bucket = nat

  /** A pending row: its ten-minute bucket, and the user, node and usage epoch it is for. */
  datatype Key = Key(bucket: Bucket, uid: nat, node: nat, epoch: nat)

  type Rows = map<Key, nat>

  const MAX_PENDING_BUCKETS: nat := 6

  datatype LastFlush = Never | At(time: real)

  function Get(m: Rows, k: Key): nat {
    if k in m then m[k] else 0
  }

  function BucketsOf(m: Rows): set<Bucket> {
    set k | k in m :: k.bucket
  }

  function NotOlder(buckets: set<Bucket>, c: Bucket): set<Bucket> {
    set b | b in buckets && b >= c
  }

  /** The sixth newest of at least six buckets. */
  function Cutoff(buckets: set<Bucket>): (c: Bucket)
    requires |buckets| >= MAX_PENDING_BUCKETS
    ensures c in buckets
    ensures |NotOlder(buckets, c)| == MAX_PENDING_BUCKETS
    decreases |buckets|
  {
    var oldest := Least(buckets);
    if |buckets| == MAX_PENDING_BUCKETS then
      assert NotOlder(buckets, oldest) == buckets;
      oldest
    else
      var c := Cutoff(buckets - {oldest});
      assert NotOlder(buckets, c) == NotOlder(buckets - {oldest}, c);
      c
  }

  /** _drop_stale_pending_user_usage_history. */
  function WithoutStale(pending: Rows): (kept: Rows) {
    if |BucketsOf(pending)| <= MAX_PENDING_BUCKETS then
      pending
    else
      var cutoff := Cutoff(BucketsOf(pending));
      map k | k in pending && k.bucket >= cutoff :: pending[k]
  }

  /** Six kept buckets are newer than the row's. */
  ghost predicate BehindSix(k: Key, kept: Rows) {
    |NotOlder(BucketsOf(kept), k.bucket + 1)| >= MAX_PENDING_BUCKETS
  }

  /** A row is dropped only when six newer buckets are kept, and at most six are kept. */
  lemma DropsOnlyBehindSixNewer(pending: Rows)
    ensures |BucketsOf(WithoutStale(pending))| <= MAX_PENDING_BUCKETS
    ensures forall k :: k in WithoutStale(pending) ==> k in pending && WithoutStale(pending)[k] == pending[k]
    ensures forall k :: k in pending && k !in WithoutStale(pending) ==> BehindSix(k, WithoutStale(pending))
  {
    var buckets := BucketsOf(pending);
    if |buckets| > MAX_PENDING_BUCKETS {
      var cutoff := Cutoff(buckets);
      var kept := WithoutStale(pending);
      forall b | b in NotOlder(buckets, cutoff)
        ensures b in BucketsOf(kept)
      {
        var k :| k in pending && k.bucket == b;
        assert k in kept;
      }
      assert BucketsOf(kept) == NotOlder(buckets, cutoff);
      forall k | k in pending && k !in kept
        ensures BehindSix(k, kept)
      {
        assert NotOlder(BucketsOf(kept), k.bucket + 1) == BucketsOf(kept);
      }
    }
  }

  /** Rows to buffer: one per key, as a call of record_user_stats brings them. */
  function Buffered(pending: Rows, rows: seq<(Key, nat)>): Rows {
    if rows == [] then
      pending
    else
      var (k, v) := rows[|rows| - 1];
      var before := Buffered(pending, rows[..|rows| - 1]);
      before[k := Get(before, k) + v]
  }

  ghost function SumFor(rows: seq<(Key, nat)>, k: Key): nat {
    if rows == [] then
      0
    else
      SumFor(rows[..|rows| - 1], k) + if rows[|rows| - 1].0 == k then rows[|rows| - 1].1 else 0
  }

  lemma {:induction false} BufferedAt(pending: Rows, rows: seq<(Key, nat)>, k: Key)
    ensures Get(Buffered(pending, rows), k) == Get(pending, k) + SumFor(rows, k)
    ensures k in Buffered(pending, rows) <==> k in pending || exists i :: 0 <= i < |rows| && rows[i].0 == k
  {
    if rows != [] {
      var rest := rows[..|rows| - 1];
      BufferedAt(pending, rest, k);
      if i :| 0 <= i < |rows| && rows[i].0 == k {
        assert i < |rest| ==> rest[i].0 == k;
      }
      if i :| 0 <= i < |rest| && rest[i].0 == k {
        assert rows[i].0 == k;
      }
    }
  }

  ghost predicate InOneBucket(rows: seq<(Key, nat)>, b: Bucket) {
    forall i :: 0 <= i < |rows| ==> rows[i].0.bucket == b
  }

  lemma BufferedBuckets(pending: Rows, rows: seq<(Key, nat)>, b: Bucket)
    requires InOneBucket(rows, b)
    ensures BucketsOf(Buffered(pending, rows)) <= BucketsOf(pending) + {b}
    ensures rows == [] ==> Buffered(pending, rows) == pending
  {
    forall k | k in Buffered(pending, rows)
      ensures k.bucket in BucketsOf(pending) + {b}
    {
      BufferedAt(pending, rows, k);
    }
  }

  // ------------------------------------------------------------------ the buffer as a value

  /**
   * The buffer, with a ledger beside it: what was ever recorded, handed to a successful
   * flush, and dropped, key by key.
   */
  datatype State = State(pending: Rows, lastFlush: LastFlush, recorded: Rows, flushed: Rows, dropped: Rows)

  const EMPTY: State := State(map[], Never, map[], map[], map[])

  function Moved(into: Rows, from: Rows): Rows {
    map k | k in into.Keys + from.Keys :: Get(into, k) + Get(from, k)
  }

  predicate AnyValue(pending: Rows) {
    exists k :: k in pending && pending[k] != 0
  }

  /** _flush_pending_user_usage_history_locked; `writes` says whether the database takes the rows. */
  function Flush(s: State, now: real, writes: bool): (State, bool) {
    if s.pending == map[] then
      (s, true)
    else if AnyValue(s.pending) && !writes then
      var kept := WithoutStale(s.pending);
      (s.(pending := kept, dropped := Moved(s.dropped, s.pending - kept.Keys)), false)
    else
      (s.(pending := map[], lastFlush := At(now), flushed := Moved(s.flushed, s.pending)), true)
  }

  predicate IsDue(s: State, now: real, interval: real) {
    s.lastFlush.At? && now - s.lastFlush.time >= interval
  }

  /** flush_user_usage_history_if_due. */
  function FlushIfDue(s: State, now: real, interval: real, writes: bool): (State, bool) {
    if s.pending == map[] then
      (s, true)
    else if s.lastFlush.Never? then
      (s.(lastFlush := At(now)), true)
    else if IsDue(s, now, interval) then
      Flush(s, now, writes)
    else
      (s, true)
  }

  function BufferRows(s: State, rows: seq<(Key, nat)>): State {
    s.(pending := Buffered(s.pending, rows), recorded := Buffered(s.recorded, rows))
  }

  predicate BucketChanged(s: State, bucket: Bucket) {
    exists k :: k in s.pending && k.bucket != bucket
  }

  /** record_user_stats with rows of one bucket. */
  function Record(s: State, op: Op, interval: real): (State, bool)
    requires op.Recording?
  {
    if op.rows == [] then
      (s, true)
    else
      var (rolled, ok) := if BucketChanged(s, op.bucket) then Flush(s, op.now, op.rolloverWrites) else (s, true);
      var buffered := BufferRows(rolled, op.rows);
      if ok && (buffered.lastFlush.Never? || IsDue(buffered, op.now, interval)) then
        Flush(buffered, op.now, op.writes)
      else
        (buffered, ok)
  }

  /** One operation with the outcome of each flush it may try. */
  datatype Op =
    | Recording(rows: seq<(Key, nat)>, bucket: Bucket, now: real, rolloverWrites: bool, writes: bool)
    | DueFlush(now: real, writes: bool)
    | ShutdownFlush(now: real, writes: bool)

  ghost predicate ValidOp(op: Op) {
    op.Recording? ==> InOneBucket(op.rows, op.bucket)
  }

  function Apply(s: State, op: Op, interval: real): (State, bool) {
    match op
    case Recording(_, _, _, _, _) => Record(s, op, interval)
    case DueFlush(now, writes) => FlushIfDue(s, now, interval, writes)
    case ShutdownFlush(now, writes) => Flush(s, now, writes)
  }

  function Run(ops: seq<Op>, interval: real): State {
    if ops == [] then EMPTY else Apply(Run(ops[..|ops| - 1], interval), ops[|ops| - 1], interval).0
  }

  // ------------------------------------------------------------------ what every run keeps

  /** Every recorded byte is in exactly one place. */
  ghost predicate Balances(s: State) {
    forall k :: Get(s.recorded, k) == Get(s.flushed, k) + Get(s.pending, k) + Get(s.dropped, k)
  }

  /** What the step dropped was behind six newer buckets, all still pending when the step ends. */
  ghost predicate DropsAreJustified(s: State, t: State) {
    forall k :: Get(t.dropped, k) != Get(s.dropped, k) ==> BehindSix(k, t.pending)
  }

  lemma FlushKeeps(s: State, now: real, writes: bool)
    requires Balances(s)
    ensures var (t, ok) := Flush(s, now, writes);
      && Balances(t)
      && DropsAreJustified(s, t)
      && t.recorded == s.recorded
      && (if ok then t.pending == map[] && t.dropped == s.dropped else t.pending == WithoutStale(s.pending))
      && |BucketsOf(t.pending)| <= MAX_PENDING_BUCKETS
      && t.lastFlush == (if ok && s.pending != map[] then At(now) else s.lastFlush)
  {
    DropsOnlyBehindSixNewer(s.pending);
  }

  lemma BufferRowsKeeps(s: State, rows: seq<(Key, nat)>)
    requires Balances(s)
    ensures Balances(BufferRows(s, rows))
  {
    forall k
      ensures Get(Buffered(s.recorded, rows), k) == Get(s.flushed, k) + Get(Buffered(s.pending, rows), k) + Get(s.dropped, k)
    {
      BufferedAt(s.pending, rows, k);
      BufferedAt(s.recorded, rows, k);
    }
  }

  /** More pending rows leave a dropped row behind at least as many buckets. */
  lemma StillBehindSix(k: Key, kept: Rows, more: Rows)
    requires BehindSix(k, kept) && kept.Keys <= more.Keys
    ensures BehindSix(k, more)
  {
    FewerElements(NotOlder(BucketsOf(kept), k.bucket + 1), NotOlder(BucketsOf(more), k.bucket + 1));
  }

  lemma BucketBound(some: set<Bucket>, b: Bucket, all: set<Bucket>)
    requires all <= some + {b}
    ensures |all| <= |some| + 1
  {
    FewerElements(all, some + {b});
    assert |some + {b}| <= |some| + 1;
  }

  /** A rollover flush that fails keeps the six newest buckets and buffers the incoming rows. */
  lemma FailedRolloverKeepsIncoming(s: State, op: Op, interval: real)
    requires op.Recording? && ValidOp(op) && op.rows != [] && Balances(s)
    requires BucketChanged(s, op.bucket) && AnyValue(s.pending) && !op.rolloverWrites
    ensures var (t, ok) := Record(s, op, interval);
      && !ok
      && Balances(t) && DropsAreJustified(s, t)
      && |BucketsOf(t.pending)| <= MAX_PENDING_BUCKETS + 1
      && t.flushed == s.flushed
      && forall k :: Get(t.pending, k) == Get(WithoutStale(s.pending), k) + SumFor(op.rows, k)
  {
    var rolled := Flush(s, op.now, op.rolloverWrites).0;
    FlushKeeps(s, op.now, op.rolloverWrites);
    BufferRowsKeeps(rolled, op.rows);
    var t := BufferRows(rolled, op.rows);
    BufferedBuckets(rolled.pending, op.rows, op.bucket);
    BucketBound(BucketsOf(rolled.pending), op.bucket, BucketsOf(t.pending));
    forall k
      ensures Get(t.pending, k) == Get(rolled.pending, k) + SumFor(op.rows, k)
      ensures k in rolled.pending ==> k in t.pending
    {
      BufferedAt(rolled.pending, op.rows, k);
    }
    forall k | Get(t.dropped, k) != Get(s.dropped, k)
      ensures BehindSix(k, t.pending)
    {
      StillBehindSix(k, rolled.pending, t.pending);
    }
  }

  /** A flush of at most six buckets drops nothing, whatever its outcome. */
  lemma SmallFlushDropsNothing(s: State, now: real, writes: bool)
    requires Balances(s) && |BucketsOf(s.pending)| <= MAX_PENDING_BUCKETS
    ensures var t := Flush(s, now, writes).0;
      && Balances(t) && t.dropped == s.dropped && (t.pending == map[] || t.pending == s.pending)
  {
    FlushKeeps(s, now, writes);
    assert s.pending - s.pending.Keys == map[];
    assert Moved(s.dropped, map[]) == s.dropped;
  }

  /** Rows of one bucket on top of rows of the same bucket. */
  lemma SameBucketRows(s: State, rows: seq<(Key, nat)>, bucket: Bucket)
    requires Balances(s) && InOneBucket(rows, bucket) && !BucketChanged(s, bucket)
    ensures Balances(BufferRows(s, rows)) && |BucketsOf(BufferRows(s, rows).pending)| <= 1
  {
    BufferRowsKeeps(s, rows);
    BufferedBuckets(s.pending, rows, bucket);
    assert BucketsOf(s.pending) <= {bucket};
    BucketBound({}, bucket, BucketsOf(BufferRows(s, rows).pending));
  }

  /** Without a failed rollover flush every pending row is of the bucket being recorded. */
  lemma OtherRecordsKeep(s: State, op: Op, interval: real)
    requires op.Recording? && ValidOp(op) && op.rows != [] && Balances(s)
    requires !(BucketChanged(s, op.bucket) && AnyValue(s.pending) && !op.rolloverWrites)
    ensures var t := Record(s, op, interval).0;
      && Balances(t) && t.dropped == s.dropped
      && |BucketsOf(t.pending)| <= 1
  {
    var rolled := if BucketChanged(s, op.bucket) then Flush(s, op.now, op.rolloverWrites).0 else s;
    FlushKeeps(s, op.now, op.rolloverWrites);
    SameBucketRows(rolled, op.rows, op.bucket);
    SmallFlushDropsNothing(BufferRows(rolled, op.rows), op.now, op.writes);
  }

  /** A due flush or a shutdown flush, tried or not. */
  lemma FlushStepKeeps(s: State, op: Op, interval: real)
    requires !op.Recording? && Balances(s) && |BucketsOf(s.pending)| <= MAX_PENDING_BUCKETS + 1
    ensures var t := Apply(s, op, interval).0;
      && Balances(t) && DropsAreJustified(s, t)
      && |BucketsOf(t.pending)| <= MAX_PENDING_BUCKETS + 1
  {
    var t := Apply(s, op, interval).0;
    if t == s.(lastFlush := t.lastFlush) {
      UntouchedKeeps(s, t);
    } else {
      assert t == Flush(s, op.now, op.writes).0;
      FlushKeeps(s, op.now, op.writes);
    }
  }

  lemma UntouchedKeeps(s: State, t: State)
    requires Balances(s) && t == s.(lastFlush := t.lastFlush)
    ensures Balances(t) && DropsAreJustified(s, t)
  {
  }

  lemma RecordStepKeeps(s: State, op: Op, interval: real)
    requires op.Recording? && ValidOp(op) && Balances(s) && |BucketsOf(s.pending)| <= MAX_PENDING_BUCKETS + 1
    ensures var t := Record(s, op, interval).0;
      && Balances(t) && DropsAreJustified(s, t)
      && |BucketsOf(t.pending)| <= MAX_PENDING_BUCKETS + 1
  {
    if op.rows == [] {
      assert Record(s, op, interval) == (s, true);
    } else if BucketChanged(s, op.bucket) && AnyValue(s.pending) && !op.rolloverWrites {
      FailedRolloverKeepsIncoming(s, op, interval);
    } else {
      OtherRecordsKeep(s, op, interval);
    }
  }

  lemma StepKeeps(s: State, op: Op, interval: real)
    requires ValidOp(op) && Balances(s) && |BucketsOf(s.pending)| <= MAX_PENDING_BUCKETS + 1
    ensures var t := Apply(s, op, interval).0;
      && Balances(t) && DropsAreJustified(s, t)
      && |BucketsOf(t.pending)| <= MAX_PENDING_BUCKETS + 1
  {
    if op.Recording? {
      RecordStepKeeps(s, op, interval);
    } else {
      FlushStepKeeps(s, op, interval);
    }
  }

  lemma {:induction false} RunKeeps(ops: seq<Op>, interval: real)
    requires forall i :: 0 <= i < |ops| ==> ValidOp(ops[i])
    ensures Balances(Run(ops, interval))
    ensures |BucketsOf(Run(ops, interval).pending)| <= MAX_PENDING_BUCKETS + 1
  {
    if ops != [] {
      RunKeeps(ops[..|ops| - 1], interval);
      StepKeeps(Run(ops[..|ops| - 1], interval), ops[|ops| - 1], interval);
    }
  }

  /**
   * Over every run of records, due flushes and shutdown flushes, with any flush failures: at
   * most seven buckets are pending at any time, every recorded byte was flushed once, is
   * pending, or was dropped, and each drop happened behind six newer pending buckets.
   */
  lemma EveryRunAccountsForItsRows(ops: seq<Op>, interval: real, n: nat)
    requires forall i :: 0 <= i < |ops| ==> ValidOp(ops[i])
    requires n < |ops|
    ensures Balances(Run(ops[..n + 1], interval))
    ensures |BucketsOf(Run(ops[..n + 1], interval).pending)| <= MAX_PENDING_BUCKETS + 1
    ensures DropsAreJustified(Run(ops[..n], interval), Run(ops[..n + 1], interval))
  {
    RunKeeps(ops[..n], interval);
    RunKeeps(ops[..n + 1], interval);
    assert ops[..n + 1][..n] == ops[..n];
    StepKeeps(Run(ops[..n], interval), ops[n], interval);
  }

  // ------------------------------------------------------------------ when rows are flushed

  /** All pending rows were flushed at this time. */
  ghost predicate FlushedAll(s: State, t: State, now: real) {
    && t.pending == map[] && t.lastFlush == At(now)
    && forall k :: Get(t.flushed, k) == Get(s.flushed, k) + Get(s.pending, k)
  }

  ghost predicate IsWithin(interval: real, last: LastFlush, now: real) {
    last.At? && now < last.time + interval
  }

  /**
   * With a database that takes it, a due flush flushes every pending row once the interval since
   * the last flush is over, and before that it leaves them alone.
   */
  lemma DueFlushIsOnTime(s: State, now: real, interval: real)
    requires interval > 0.0 && s.pending != map[]
    ensures var (t, ok) := FlushIfDue(s, now, interval, true);
      && ok
      && if s.lastFlush.At? && now >= s.lastFlush.time + interval then
           FlushedAll(s, t, now)
         else
           t == s.(lastFlush := t.lastFlush) && IsWithin(interval, t.lastFlush, now)
  {
  }

  lemma RowsOnTop(pending: Rows, rows: seq<(Key, nat)>, bucket: Bucket)
    requires InOneBucket(rows, bucket) && forall k :: k in pending ==> k.bucket == bucket
    ensures forall k :: Get(Buffered(pending, rows), k) >= Get(pending, k)
    ensures forall k :: k in Buffered(pending, rows) ==> k.bucket == bucket
  {
    forall k
      ensures Get(Buffered(pending, rows), k) >= Get(pending, k)
      ensures k in Buffered(pending, rows) ==> k.bucket == bucket
    {
      BufferedAt(pending, rows, k);
    }
  }

  /**
   * With a database that takes them, rows of an earlier bucket and rows pending for an interval
   * are flushed by the next rows to be recorded, and until then rows are only collected.
   */
  lemma RecordIsOnTime(s: State, op: Op, interval: real)
    requires op.Recording? && op.rows != [] && op.rolloverWrites && op.writes && interval > 0.0
    requires ValidOp(op)
    ensures var (t, ok) := Record(s, op, interval);
      && ok
      && (if !BucketChanged(s, op.bucket) && IsWithin(interval, s.lastFlush, op.now) then
            t == BufferRows(s, op.rows)
          else
            forall k :: k in s.pending ==> Get(t.flushed, k) >= Get(s.flushed, k) + Get(s.pending, k))
      && (t.pending == map[] || IsWithin(interval, t.lastFlush, op.now))
      && forall k :: k in t.pending ==> k.bucket == op.bucket
  {
    var changed := BucketChanged(s, op.bucket);
    var rolled := if changed then Flush(s, op.now, true).0 else s;
    RowsOnTop(rolled.pending, op.rows, op.bucket);
  }

  // ------------------------------------------------------------------ the buffer in place

  /** The module state of the buffer; the ghost part of `Abs` is the ledger. */
  class Buffer {
    var pending: Rows
    var lastFlush: LastFlush
    const interval: real
    ghost var recorded: Rows
    ghost var flushed: Rows
    ghost var dropped: Rows

    ghost function Abs(): State
      reads this
    {
      State(pending, lastFlush, recorded, flushed, dropped)
    }

    constructor (interval: real)
      ensures Abs() == EMPTY && this.interval == interval
    {
      this.interval := interval;
      pending, lastFlush := map[], Never;
      recorded, flushed, dropped := map[], map[], map[];
    }

    method FlushLocked(now: real, writes: bool) returns (ok: bool)
      modifies this
      ensures (Abs(), ok) == Flush(old(Abs()), now, writes)
    {
      if pending == map[] {
        return true;
      }
      var rows := map k | k in pending && pending[k] != 0 :: pending[k];
      assert rows != map[] <==> AnyValue(pending) by {
        if AnyValue(pending) {
          var k :| k in pending && pending[k] != 0;
          assert k in rows;
        }
      }
      if rows != map[] && !writes {
        var kept := WithoutStale(pending);
        dropped := Moved(dropped, pending - kept.Keys);
        pending := kept;
        return false;
      }
      flushed := Moved(flushed, pending);
      pending := map[];
      lastFlush := At(now);
      return true;
    }

    method FlushWhenDue(now: real, writes: bool) returns (ok: bool)
      modifies this
      ensures (Abs(), ok) == FlushIfDue(old(Abs()), now, interval, writes)
    {
      if pending == map[] {
        return true;
      }
      if lastFlush.Never? {
        lastFlush := At(now);
        return true;
      }
      if now - lastFlush.time < interval {
        return true;
      }
      ok := FlushLocked(now, writes);
    }

    method BufferHistoryRows(rows: seq<(Key, nat)>)
      modifies this`pending, this`recorded
      ensures Abs() == BufferRows(old(Abs()), rows)
    {
      for i := 0 to |rows|
        invariant pending == Buffered(old(pending), rows[..i])
        invariant recorded == Buffered(old(recorded), rows[..i])
      {
        assert rows[..i + 1][..i] == rows[..i];
        var (k, v) := rows[i];
        pending := pending[k := Get(pending, k) + v];
        recorded := recorded[k := Get(recorded, k) + v];
      }
      assert rows[..|rows|] == rows;
    }

    /** record_user_stats; the flags say which of its two possible flushes the database takes. */
    method RecordUserStats(rows: seq<(Key, nat)>, bucket: Bucket, now: real, rolloverWrites: bool, writes: bool)
      returns (ok: bool)
      requires InOneBucket(rows, bucket)
      modifies this
      ensures (Abs(), ok) == Record(old(Abs()), Recording(rows, bucket, now, rolloverWrites, writes), interval)
    {
      if rows == [] {
        return true;
      }
      var bucketChanged := exists k :: k in pending && k.bucket != bucket;
      if bucketChanged {
        ok := FlushLocked(now, rolloverWrites);
        if !ok {
          BufferHistoryRows(rows);
          return;
        }
      }
      BufferHistoryRows(rows);
      if lastFlush.Never? {
        ok := FlushLocked(now, writes);
        return;
      }
      ok := true;
      if now - lastFlush.time >= interval {
        ok := FlushLocked(now, writes);
      }
    }
  }
}
