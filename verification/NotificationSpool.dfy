/**
 * The spool that carries unsent notifications over a restart (app/fork/notification_spool.py):
 * files that are replaced, renamed and unlinked step by step, and what a crash at any step leaves.
 */
module NotificationSpool {
  import opened NatSets

  /** One notification. */
  type Item = nat

  datatype Queue = Notifications | Webhooks

  datatype Entry = Entry(queue: Queue, item: Item)

  datatype Queues = Queues(notifications: seq<Item>, webhooks: seq<Item>) {
    function Of(q: Queue): seq<Item> {
      if q == Notifications then notifications else webhooks
    }

    /** The queues with the entries appended, each to its own. */
    function Fed(entries: seq<Entry>): Queues {
      Queues(notifications + Items(Notifications, entries), webhooks + Items(Webhooks, entries))
    }
  }

  const EMPTY: Queues := Queues([], [])

  /** What the list in a spool file holds: entries for a known queue, or anything else. */
  datatype Raw = Valid(entry: Entry) | Invalid(text: string)

  /** A file that can be read as a spool, or not. */
  datatype Contents = Broken(bytes: string) | Listed(raw: seq<Raw>)

  datatype Slot = Absent | Present(contents: Contents)

  const SPOOL_MAX_ITEMS: nat := 10_000

  /** The spool, files being restored by the number in their name, and what was moved aside. */
  datatype Disk = Disk(spool: Slot, restoring: map<nat, Contents>, aside: seq<Contents>)

  // ------------------------------------------------------------------ entries

  function ValidEntries(raw: seq<Raw>): seq<Entry> {
    if raw == [] then
      []
    else
      ValidEntries(raw[..|raw| - 1]) + if raw[|raw| - 1].Valid? then [raw[|raw| - 1].entry] else []
  }

  function InvalidEntries(raw: seq<Raw>): seq<Raw> {
    if raw == [] then
      []
    else
      InvalidEntries(raw[..|raw| - 1]) + if raw[|raw| - 1].Valid? then [] else [raw[|raw| - 1]]
  }

  lemma {:induction false} EntriesOfBoth(a: seq<Raw>, b: seq<Raw>)
    ensures ValidEntries(a + b) == ValidEntries(a) + ValidEntries(b)
    ensures InvalidEntries(a + b) == InvalidEntries(a) + InvalidEntries(b)
  {
    if b == [] {
      assert a + b == a;
    } else {
      var all, rest := a + b, b[..|b| - 1];
      assert all[..|all| - 1] == a + rest;
      EntriesOfBoth(a, rest);
    }
  }

  /** Every entry of the list is on exactly one side, and nothing else is. */
  lemma {:induction false} EntriesAreSplit(raw: seq<Raw>)
    ensures forall e :: e in ValidEntries(raw) <==> Valid(e) in raw
    ensures forall x :: x in InvalidEntries(raw) <==> x in raw && x.Invalid?
    ensures |ValidEntries(raw)| + |InvalidEntries(raw)| == |raw|
  {
    if raw != [] {
      EntriesAreSplit(raw[..|raw| - 1]);
      assert raw == raw[..|raw| - 1] + [raw[|raw| - 1]];
    }
  }

  function Stored(c: Contents): seq<Entry> {
    if c.Broken? then [] else ValidEntries(c.raw)
  }

  function InSlot(slot: Slot): seq<Entry> {
    if slot.Absent? then [] else Stored(slot.contents)
  }

  function Wrapped(entries: seq<Entry>): Contents {
    Listed(seq(|entries|, i requires 0 <= i < |entries| => Valid(entries[i])))
  }

  lemma {:induction false} WrappedRoundTrip(entries: seq<Entry>)
    ensures Stored(Wrapped(entries)) == entries
  {
    if entries != [] {
      var rest := entries[..|entries| - 1];
      WrappedRoundTrip(rest);
      assert Wrapped(entries).raw[..|entries| - 1] == Wrapped(rest).raw;
      assert entries == rest + [entries[|entries| - 1]];
    }
  }

  /** The items for one queue, in order. */
  function Items(q: Queue, entries: seq<Entry>): seq<Item> {
    if entries == [] then
      []
    else
      var last := entries[|entries| - 1];
      Items(q, entries[..|entries| - 1]) + if last.queue == q then [last.item] else []
  }

  function Tagged(q: Queue, items: seq<Item>): seq<Entry> {
    seq(|items|, i requires 0 <= i < |items| => Entry(q, items[i]))
  }

  lemma {:induction false} ItemsOfTagged(q: Queue, owner: Queue, items: seq<Item>)
    ensures Items(q, Tagged(owner, items)) == if q == owner then items else []
  {
    if items != [] {
      var rest := items[..|items| - 1];
      ItemsOfTagged(q, owner, rest);
      assert Tagged(owner, items)[..|items| - 1] == Tagged(owner, rest);
      assert items == rest + [items[|items| - 1]];
    }
  }

  lemma {:induction false} ItemsOfBoth(q: Queue, a: seq<Entry>, b: seq<Entry>)
    ensures Items(q, a + b) == Items(q, a) + Items(q, b)
  {
    if b == [] {
      assert a + b == a;
    } else {
      var all, rest := a + b, b[..|b| - 1];
      assert all[..|all| - 1] == a + rest;
      ItemsOfBoth(q, a, rest);
    }
  }

  lemma FedTwice(queues: Queues, a: seq<Entry>, b: seq<Entry>)
    ensures queues.Fed(a).Fed(b) == queues.Fed(a + b)
  {
    ItemsOfBoth(Notifications, a, b);
    ItemsOfBoth(Webhooks, a, b);
  }

  /** What a shutdown drains: one queue after the other. */
  function Drained(queues: Queues): seq<Entry> {
    Tagged(Notifications, queues.notifications) + Tagged(Webhooks, queues.webhooks)
  }

  function Capped(entries: seq<Entry>): seq<Entry> {
    if |entries| > SPOOL_MAX_ITEMS then entries[..SPOOL_MAX_ITEMS] else entries
  }

  /** Feeding back what was drained restores both queues, in order. */
  lemma DrainedRoundTrip(queues: Queues)
    ensures EMPTY.Fed(Drained(queues)) == queues
  {
    var n, w := Tagged(Notifications, queues.notifications), Tagged(Webhooks, queues.webhooks);
    FedTwice(EMPTY, n, w);
    ItemsOfTagged(Notifications, Notifications, queues.notifications);
    ItemsOfTagged(Webhooks, Notifications, queues.notifications);
    ItemsOfTagged(Notifications, Webhooks, queues.webhooks);
    ItemsOfTagged(Webhooks, Webhooks, queues.webhooks);
  }

  /** What the named files hold, one after the other. */
  function Backlog(files: map<nat, Contents>, names: seq<nat>): seq<Entry>
    requires forall n :: n in names ==> n in files
  {
    if names == [] then
      []
    else
      Backlog(files, names[..|names| - 1]) + Stored(files[names[|names| - 1]])
  }

  function Sorted(names: set<nat>): (sorted: seq<nat>)
    ensures forall n :: n in sorted <==> n in names
    ensures forall i, j :: 0 <= i < j < |sorted| ==> sorted[i] < sorted[j]
  {
    if names == {} then
      []
    else
      var first := Least(names);
      var rest := Sorted(names - {first});
      assert forall i :: 0 <= i < |rest| ==> rest[i] in rest;
      [first] + rest
  }

  // ------------------------------------------------------------------ nothing saved is lost

  predicate OnDisk(disk: Disk, e: Entry) {
    e in InSlot(disk.spool) || exists n :: n in disk.restoring && e in Stored(disk.restoring[n])
  }

  /** What a file holds that cannot be sent: the whole of it, or single entries. */
  datatype Scrap = BrokenFile(bytes: string) | BrokenEntry(text: string)

  ghost predicate IsScrapOf(x: Scrap, c: Contents) {
    match c
    case Broken(bytes) => x == BrokenFile(bytes)
    case Listed(raw) => x.BrokenEntry? && Invalid(x.text) in raw
  }

  ghost predicate IsAside(x: Scrap, disk: Disk) {
    exists i :: 0 <= i < |disk.aside| && IsScrapOf(x, disk.aside[i])
  }

  ghost predicate ScrapOnDisk(x: Scrap, disk: Disk) {
    || IsAside(x, disk)
    || (disk.spool.Present? && IsScrapOf(x, disk.spool.contents))
    || exists n :: n in disk.restoring && IsScrapOf(x, disk.restoring[n])
  }

  /** What cannot be sent of the file is also kept aside. */
  ghost predicate ScrapIsAside(c: Contents, disk: Disk) {
    forall x :: IsScrapOf(x, c) ==> IsAside(x, disk)
  }

  /**
   * The disk after some step, with all entries ever saved, put into a queue, or cut by the cap,
   * and everything found that cannot be sent.
   */
  datatype Snapshot = Snapshot(disk: Disk, saved: set<Entry>, enqueued: set<Entry>, cut: set<Entry>, scrap: set<Scrap>)

  /**
   * Every entry that a completed write saved is on disk, was enqueued, or was cut, and what
   * cannot be sent is still on disk for the operator.
   */
  ghost predicate IsSafe(s: Snapshot) {
    && (forall e :: e in s.saved ==> OnDisk(s.disk, e) || e in s.enqueued || e in s.cut)
    && (forall x :: x in s.scrap ==> ScrapOnDisk(x, s.disk))
  }

  lemma AsideGrows(before: Disk, after: Disk)
    requires before.aside <= after.aside
    ensures forall x :: IsAside(x, before) ==> IsAside(x, after)
  {
    forall x | IsAside(x, before)
      ensures IsAside(x, after)
    {
      var i :| 0 <= i < |before.aside| && IsScrapOf(x, before.aside[i]);
      assert after.aside[i] == before.aside[i];
    }
  }

  // ------------------------------------------------------------------ the spool in place

  class Spool {
    var disk: Disk
    var clock: nat
    var queues: Queues
    ghost var saved: set<Entry>
    ghost var enqueued: set<Entry>
    ghost var cut: set<Entry>
    ghost const scrap: set<Scrap>
    /** The state after every step that a crash could follow. */
    ghost var trace: seq<Snapshot>

    ghost function Now(): Snapshot
      reads this
    {
      Snapshot(disk, saved, enqueued, cut, scrap)
    }

    ghost predicate Valid()
      reads this
    {
      && (forall n :: n in disk.restoring ==> n < clock)
      && trace != [] && trace[|trace| - 1] == Now()
      && forall i :: 0 <= i < |trace| ==> IsSafe(trace[i])
    }

    /** A process that starts on the disk that a crash, or a shutdown, left. */
    constructor Start(disk: Disk, clock: nat, ghost found: Snapshot)
      requires IsSafe(found) && disk == found.disk && forall n :: n in disk.restoring ==> n < clock
      ensures Valid() && Now() == found && trace == [found]
      ensures queues == EMPTY
    {
      this.disk, this.clock := disk, clock;
      queues := EMPTY;
      saved, enqueued, cut, scrap := found.saved, found.enqueued, found.cut, found.scrap;
      trace := [found];
    }

    /** One change on disk or of a queue that happens at once or not at all. */
    method Change(next: Disk, ghost saved: set<Entry>, ghost enqueued: set<Entry>, ghost cut: set<Entry>)
      requires Valid() && IsSafe(Snapshot(next, saved, enqueued, cut, scrap))
      requires forall n :: n in next.restoring ==> n < clock
      modifies this`disk, this`saved, this`enqueued, this`cut, this`trace
      ensures Valid() && Now() == Snapshot(next, saved, enqueued, cut, scrap) && trace == old(trace) + [Now()]
    {
      disk := next;
      this.saved, this.enqueued, this.cut := saved, enqueued, cut;
      trace := trace + [Now()];
    }

    /** _write_atomically on a new file beside the spool. */
    method WriteAside(raw: seq<Raw>) returns (ok: bool)
      requires Valid()
      modifies this`disk, this`saved, this`enqueued, this`cut, this`trace
      ensures Valid() && old(trace) <= trace
      ensures disk.spool == old(disk.spool) && disk.restoring == old(disk.restoring)
      ensures saved == old(saved) && enqueued == old(enqueued) && cut == old(cut)
      ensures old(disk.aside) <= disk.aside && (ok ==> disk.aside == old(disk.aside) + [Listed(raw)])
    {
      var landed: bool := *;
      if landed {
        assert IsSafe(Now());
        AsideGrows(disk, disk.(aside := disk.aside + [Listed(raw)]));
        Change(disk.(aside := disk.aside + [Listed(raw)]), saved, enqueued, cut);
        ok := *;
      } else {
        ok := false;
      }
    }

    /** _valid_entries: invalid entries are kept aside before any use of the valid ones. */
    method CheckEntries(raw: seq<Raw>) returns (ok: bool, valid: seq<Entry>)
      requires Valid()
      modifies this`disk, this`saved, this`enqueued, this`cut, this`trace
      ensures Valid() && old(trace) <= trace
      ensures disk.spool == old(disk.spool) && disk.restoring == old(disk.restoring)
      ensures saved == old(saved) && enqueued == old(enqueued) && cut == old(cut)
      ensures valid == ValidEntries(raw) && forall e :: e in valid <==> Raw.Valid(e) in raw
      ensures old(disk.aside) <= disk.aside
      ensures ok ==> ScrapIsAside(Listed(raw), disk)
    {
      valid := [];
      var invalid: seq<Raw> := [];
      for i := 0 to |raw|
        invariant valid == ValidEntries(raw[..i]) && invalid == InvalidEntries(raw[..i])
      {
        assert raw[..i + 1][..i] == raw[..i];
        match raw[i] {
          case Valid(entry) => valid := valid + [entry];
          case Invalid(_) => invalid := invalid + [raw[i]];
        }
      }
      assert raw[..|raw|] == raw;
      EntriesAreSplit(raw);
      ok := true;
      if invalid != [] {
        ok := WriteAside(invalid);
        assert ok ==> disk.aside[|old(disk.aside)|] == Listed(invalid);
      }
    }

    /** _existing_entries: a spool that cannot be read is moved aside, as it holds nothing to send. */
    method ExistingEntries() returns (ok: bool, entries: seq<Entry>)
      requires Valid()
      modifies this`disk, this`saved, this`enqueued, this`cut, this`trace
      ensures Valid() && old(trace) <= trace
      ensures disk.restoring == old(disk.restoring)
      ensures saved == old(saved) && enqueued == old(enqueued) && cut == old(cut)
      ensures entries == InSlot(old(disk.spool)) == InSlot(disk.spool)
      ensures old(disk.aside) <= disk.aside
      ensures ok && disk.spool.Present? ==> ScrapIsAside(disk.spool.contents, disk)
    {
      match disk.spool
      case Absent =>
        return true, [];
      case Present(Broken(bytes)) =>
        ok := *;
        entries := [];
        if ok {
          var next := disk.(spool := Absent, aside := disk.aside + [Broken(bytes)]);
          assert IsSafe(Snapshot(next, saved, enqueued, cut, scrap)) by {
            assert IsSafe(Now());
            AsideGrows(disk, next);
            assert next.aside[|disk.aside|] == Broken(bytes);
          }
          Change(next, saved, enqueued, cut);
        }
      case Present(Listed(raw)) =>
        ok, entries := CheckEntries(raw);
    }

    /**
     * _write_atomically on the spool; it may fail after the new file is in place. What is saved
     * anew counts as saved only: that it was once enqueued or cut in an earlier life is over.
     */
    method WriteSpool(entries: seq<Entry>, ghost more: set<Entry>, ghost lost: set<Entry>) returns (ok: bool)
      requires Valid()
      requires forall e :: e in InSlot(disk.spool) || e in more ==> e in entries || e in lost
      requires disk.spool.Present? ==> ScrapIsAside(disk.spool.contents, disk)
      modifies this`disk, this`saved, this`enqueued, this`cut, this`trace
      ensures Valid() && old(trace) <= trace && disk.restoring == old(disk.restoring) && disk.aside == old(disk.aside)
      ensures Now() == old(Now()) || HasWritten(old(Now()), entries, more, lost)
      ensures ok ==> HasWritten(old(Now()), entries, more, lost)
    {
      var landed: bool := *;
      ok := false;
      if landed {
        var next := disk.(spool := Present(Wrapped(entries)));
        WrappedRoundTrip(entries);
        assert IsSafe(Snapshot(next, saved + more, enqueued - more, cut - more + lost, scrap)) by {
          assert IsSafe(Now());
          assert forall e :: OnDisk(disk, e) ==> OnDisk(next, e) || e in InSlot(disk.spool);
        }
        Change(next, saved + more, enqueued - more, cut - more + lost);
        ok := *;
      }
    }

    ghost predicate HasWritten(before: Snapshot, entries: seq<Entry>, more: set<Entry>, lost: set<Entry>)
      reads this
    {
      && InSlot(disk.spool) == entries
      && saved == before.saved + more && enqueued == before.enqueued - more && cut == before.cut - more + lost
    }

    /**
     * persist_notification_backlog. Whatever fails, and wherever a crash comes, nothing that
     * was saved before is lost but by the cap; on success the spool holds what it held and
     * then the drained queues, up to the cap.
     */
    method PersistBacklog() returns (ok: bool)
      requires Valid()
      modifies this
      ensures Valid() && old(trace) <= trace && disk.restoring == old(disk.restoring) && queues == EMPTY
      ensures Drained(old(queues)) == [] ==> Now() == old(Now())
      ensures ok && Drained(old(queues)) != [] ==>
                InSlot(disk.spool) == Capped(InSlot(old(disk.spool)) + Drained(old(queues)))
      ensures ok ==> forall e :: e in Drained(old(queues)) ==> e in saved && e !in enqueued
      ensures ok && |InSlot(old(disk.spool)) + Drained(old(queues))| <= SPOOL_MAX_ITEMS ==>
                forall e :: e in Drained(old(queues)) ==> e in InSlot(disk.spool) && e !in cut
      ensures !(cut <= old(cut)) ==> |InSlot(old(disk.spool)) + Drained(old(queues))| > SPOOL_MAX_ITEMS
    {
      var entries := Drained(queues);
      queues := EMPTY;
      if entries == [] {
        return true;
      }
      var existing;
      ok, existing := ExistingEntries();
      if !ok {
        return;
      }
      var combined := existing + entries;
      var overflow: seq<Entry> := [];
      if |combined| > SPOOL_MAX_ITEMS {
        overflow := combined[SPOOL_MAX_ITEMS..];
        combined := combined[..SPOOL_MAX_ITEMS];
      }
      assert existing + entries == combined + overflow;
      ghost var more, lost := set e | e in entries, set e | e in overflow;
      assert overflow == [] ==> lost == {};
      forall e | e in InSlot(disk.spool) || e in more
        ensures e in combined || e in lost
      {
        assert e in existing + entries;
        assert e in combined + overflow;
      }
      ok := WriteSpool(combined, more, lost);
    }

    /** A restoring file goes once each of its entries was enqueued or is in the spool. */
    method Unlink(n: nat) returns (ok: bool)
      requires Valid() && n in disk.restoring
      requires forall e :: e in Stored(disk.restoring[n]) ==> e in enqueued || e in InSlot(disk.spool)
      requires ScrapIsAside(disk.restoring[n], disk)
      modifies this`disk, this`saved, this`enqueued, this`cut, this`trace
      ensures Valid() && old(trace) <= trace
      ensures saved == old(saved) && enqueued == old(enqueued) && cut == old(cut)
      ensures disk == if ok then old(disk).(restoring := old(disk.restoring) - {n}) else old(disk)
    {
      ok := *;
      if ok {
        var next := disk.(restoring := disk.restoring - {n});
        assert IsSafe(Snapshot(next, saved, enqueued, cut, scrap)) by {
          assert IsSafe(Now());
          GoneIsOnlyThere(disk, next, n);
        }
        Change(next, saved, enqueued, cut);
      }
    }

    /** One entry goes into its queue, or the queue refuses it. */
    method Enqueue(e: Entry) returns (ok: bool)
      requires Valid()
      modifies this`queues, this`disk, this`saved, this`enqueued, this`cut, this`trace
      ensures Valid() && old(trace) <= trace
      ensures disk == old(disk) && saved == old(saved) && cut == old(cut)
      ensures enqueued == if ok then old(enqueued) + {e} else old(enqueued)
      ensures queues == if ok then old(queues).Fed([e]) else old(queues)
    {
      ok := *;
      if ok {
        assert forall q :: Items(q, [e]) == if e.queue == q then [e.item] else [] by {
          assert [e][..0] == [];
        }
        match e.queue {
          case Notifications => queues := queues.(notifications := queues.notifications + [e.item]);
          case Webhooks => queues := queues.(webhooks := queues.webhooks + [e.item]);
        }
        assert IsSafe(Now());
        Change(disk, saved, enqueued + {e}, cut);
      }
    }

    /** The loop of _restore_file up to the first entry that its queue refuses. */
    method EnqueueAll(entries: seq<Entry>) returns (done: nat)
      requires Valid()
      modifies this`queues, this`disk, this`saved, this`enqueued, this`cut, this`trace
      ensures Valid() && old(trace) <= trace && disk == old(disk) && saved == old(saved) && cut == old(cut)
      ensures done <= |entries| && queues == old(queues).Fed(entries[..done])
      ensures forall e :: e in entries[..done] ==> e in enqueued
    {
      done := 0;
      while done < |entries|
        invariant Valid() && old(trace) <= trace && disk == old(disk) && saved == old(saved) && cut == old(cut)
        invariant done <= |entries| && queues == old(queues).Fed(entries[..done])
        invariant forall e :: e in entries[..done] ==> e in enqueued
      {
        var ok := Enqueue(entries[done]);
        if !ok {
          return;
        }
        assert entries[..done + 1] == entries[..done] + [entries[done]];
        FedTwice(old(queues), entries[..done], [entries[done]]);
        done := done + 1;
      }
    }

    /** The failed half of _restore_file: what is left goes back in front of the spool. */
    method PutBack(n: nat, entries: seq<Entry>, done: nat) returns (ok: bool)
      requires Valid() && n in disk.restoring && Stored(disk.restoring[n]) == entries && done <= |entries|
      requires ScrapIsAside(disk.restoring[n], disk)
      requires forall e :: e in entries[..done] ==> e in enqueued
      modifies this`disk, this`saved, this`enqueued, this`cut, this`trace
      ensures Valid() && old(trace) <= trace
      ensures saved == old(saved) && enqueued == old(enqueued) && cut == old(cut)
      ensures disk.restoring == old(disk.restoring) || disk.restoring == old(disk.restoring) - {n}
      ensures ok <==> n !in disk.restoring
      ensures ok ==> InSlot(disk.spool) == entries[done..] + InSlot(old(disk.spool))
    {
      ghost var before := disk;
      var existing;
      ok, existing := ExistingEntries();
      if !ok {
        return;
      }
      AsideGrows(before, disk);
      assert entries == entries[..done] + entries[done..];
      ok := WriteSpool(entries[done..] + existing, {}, {});
      assert saved == old(saved) && cut == old(cut) && enqueued == old(enqueued);
      if ok {
        ok := Unlink(n);
      }
    }

    /**
     * _restore_file. Without a failure the entries are appended to their queues in order and
     * the file is gone; with one, whatever is not enqueued is still on disk.
     */
    method RestoreFile(n: nat) returns (ok: bool)
      requires Valid() && n in disk.restoring
      modifies this`queues, this`disk, this`saved, this`enqueued, this`cut, this`trace
      ensures Valid() && old(trace) <= trace && saved == old(saved) && cut == old(cut)
      ensures disk.restoring == old(disk.restoring) || disk.restoring == old(disk.restoring) - {n}
      ensures ok ==> n !in disk.restoring && disk.spool == old(disk.spool)
      ensures ok ==> queues == old(queues).Fed(Stored(old(disk.restoring)[n]))
    {
      if disk.restoring[n].Broken? {
        ok := *;
        if ok {
          var next := disk.(restoring := disk.restoring - {n}, aside := disk.aside + [disk.restoring[n]]);
          assert IsSafe(Snapshot(next, saved, enqueued, cut, scrap)) by {
            assert IsSafe(Now());
            AsideGrows(disk, next);
            assert next.aside[|disk.aside|] == disk.restoring[n];
            GoneIsOnlyThere(disk, next, n);
          }
          Change(next, saved, enqueued, cut);
        }
        return;
      }
      var entries;
      ok, entries := CheckEntries(disk.restoring[n].raw);
      if !ok {
        return;
      }
      var done := EnqueueAll(entries);
      if done < |entries| {
        var _ := PutBack(n, entries, done);
        return false;
      }
      assert entries[..|entries|] == entries;
      ok := Unlink(n);
    }

    /** _claim on a file that an interrupted restore left. */
    method ClaimLeftover(n: nat) returns (ok: bool, claimed: nat)
      requires Valid() && n in disk.restoring
      modifies this`clock, this`disk, this`saved, this`enqueued, this`cut, this`trace
      ensures Valid() && old(trace) <= trace && saved == old(saved) && enqueued == old(enqueued) && cut == old(cut)
      ensures claimed == old(clock) < clock
      ensures disk == if ok then old(disk).(restoring := (old(disk.restoring) - {n})[claimed := old(disk.restoring)[n]]) else old(disk)
    {
      claimed := clock;
      clock := clock + 1;
      ok := *;
      if ok {
        var next := disk.(restoring := (disk.restoring - {n})[claimed := disk.restoring[n]]);
        assert IsSafe(Now());
        FileIsRenamed(disk, next, n, claimed);
        Change(next, saved, enqueued, cut);
      }
    }

    /** _claim on the spool. */
    method ClaimSpool() returns (ok: bool, claimed: nat)
      requires Valid() && disk.spool.Present?
      modifies this`clock, this`disk, this`saved, this`enqueued, this`cut, this`trace
      ensures Valid() && old(trace) <= trace && saved == old(saved) && enqueued == old(enqueued) && cut == old(cut)
      ensures claimed == old(clock)
      ensures disk == if ok then old(disk).(spool := Absent, restoring := old(disk.restoring)[claimed := old(disk.spool).contents]) else old(disk)
    {
      claimed := clock;
      clock := clock + 1;
      ok := *;
      if ok {
        var next := disk.(spool := Absent, restoring := disk.restoring[claimed := disk.spool.contents]);
        assert IsSafe(Now());
        SpoolIsClaimed(disk, next, claimed);
        Change(next, saved, enqueued, cut);
      }
    }

    /** One leftover; failing to claim it stops the restore. */
    method RestoreLeftover(name: nat) returns (ok: bool, stopped: bool)
      requires Valid() && name in disk.restoring
      modifies this
      ensures Valid() && old(trace) <= trace && saved == old(saved) && cut == old(cut)
      ensures ok ==> disk.spool == old(disk.spool) && disk.restoring == old(disk.restoring) - {name}
      ensures ok ==> queues == old(queues).Fed(Stored(old(disk.restoring)[name]))
      ensures stopped ==> !ok && disk == old(disk) && queues == old(queues)
    {
      ghost var files: map<nat, Contents> := disk.restoring;
      var claimed, n := ClaimLeftover(name);
      if !claimed {
        return false, true;
      }
      ok := RestoreFile(n);
      stopped := false;
      ghost var others: map<nat, Contents> := files - {name};
      assert others[n := files[name]] - {n} == others;
    }

    /** The leftovers, oldest name first. */
    method RestoreLeftovers(names: seq<nat>) returns (ok: bool, stopped: bool)
      requires Valid() && (forall n :: n in names ==> n in disk.restoring)
      requires forall i, j :: 0 <= i < j < |names| ==> names[i] < names[j]
      modifies this
      ensures Valid() && old(trace) <= trace && saved == old(saved) && cut == old(cut)
      ensures ok ==> disk.spool == old(disk.spool) && disk.restoring == old(disk.restoring) - Taken(names)
      ensures ok ==> queues == old(queues).Fed(Backlog(old(disk.restoring), names))
      ensures stopped ==> !ok
    {
      ok, stopped := true, false;
      ghost var files: map<nat, Contents> := disk.restoring;
      ghost var before := queues;
      assert queues == before.Fed(Backlog(files, names[..0]));
      for i := 0 to |names|
        invariant Valid() && old(trace) <= trace && saved == old(saved) && cut == old(cut)
        invariant ok ==> disk.spool == old(disk.spool) && disk.restoring == files - Taken(names[..i])
        invariant ok ==> queues == before.Fed(Backlog(files, names[..i]))
      {
        if names[i] !in disk.restoring {
          ok := false;
          continue;
        }
        var restored;
        restored, stopped := RestoreLeftover(names[i]);
        if stopped {
          return false, true;
        }
        ok := ok && restored;
        TakenOneMore(files, names, i);
        BacklogGrows(files, names, i);
        FedTwice(before, Backlog(files, names[..i]), Stored(files[names[i]]));
      }
      assert names[..|names|] == names;
    }

    method RestoreSpool() returns (ok: bool)
      requires Valid()
      modifies this
      ensures Valid() && old(trace) <= trace && saved == old(saved) && cut == old(cut)
      ensures ok ==> disk.spool == Absent && disk.restoring == old(disk.restoring)
      ensures ok ==> queues == old(queues).Fed(InSlot(old(disk.spool)))
    {
      if disk.spool.Absent? {
        return true;
      }
      ghost var files: map<nat, Contents> := disk.restoring;
      var claimed, n;
      claimed, n := ClaimSpool();
      if !claimed {
        return false;
      }
      ok := RestoreFile(n);
      assert files[n := old(disk.spool).contents] - {n} == files;
    }

    /**
     * restore_notification_backlog. With several workers the files of interrupted restores are
     * left alone. A claim that fails ends the restore. Without a failure everything found is in the queues, in order, and off the disk.
     */
    method Restore(multiWorker: bool) returns (ok: bool, stopped: bool, ghost left: Snapshot)
      requires Valid()
      modifies this
      ensures Valid() && old(trace) <= trace && saved == old(saved) && cut == old(cut)
      ensures ok ==> disk.spool == Absent && disk.restoring == if multiWorker then old(disk.restoring) else map[]
      ensures ok ==> queues == old(queues).Fed(Found(old(disk), multiWorker))
      ensures stopped ==> !ok && Now() == left
    {
      var names := if multiWorker then [] else Sorted(disk.restoring.Keys);
      FedTwice(queues, Backlog(disk.restoring, names), InSlot(disk.spool));
      ghost var files: map<nat, Contents> := disk.restoring;
      LeftoversTaken(files, multiWorker, names);
      ok, stopped := RestoreLeftovers(names);
      left := Now();
      if stopped {
        return;
      }
      var restored := RestoreSpool();
      ok := ok && restored;
    }
  }

  /** The files that a start finds and takes up, in the order it takes them. */
  function Found(disk: Disk, multiWorker: bool): seq<Entry> {
    Backlog(disk.restoring, if multiWorker then [] else Sorted(disk.restoring.Keys)) + InSlot(disk.spool)
  }

  lemma FileIsRenamed(disk: Disk, next: Disk, from: nat, to: nat)
    requires from in disk.restoring && to !in disk.restoring && next.spool == disk.spool
    requires next.restoring == (disk.restoring - {from})[to := disk.restoring[from]]
    requires next.aside == disk.aside
    ensures forall e :: OnDisk(disk, e) ==> OnDisk(next, e)
    ensures forall x :: ScrapOnDisk(x, disk) ==> ScrapOnDisk(x, next)
  {
    AsideGrows(disk, next);
    forall e | OnDisk(disk, e)
      ensures OnDisk(next, e)
    {
      if e !in InSlot(disk.spool) {
        var k :| k in disk.restoring && e in Stored(disk.restoring[k]);
        var now := if k == from then to else k;
        assert now in next.restoring && next.restoring[now] == disk.restoring[k];
      }
    }
    forall x | ScrapOnDisk(x, disk) && !IsAside(x, disk)
      ensures ScrapOnDisk(x, next)
    {
      if k :| k in disk.restoring && IsScrapOf(x, disk.restoring[k]) {
        var now := if k == from then to else k;
        assert now in next.restoring && next.restoring[now] == disk.restoring[k];
      }
    }
  }

  lemma SpoolIsClaimed(disk: Disk, next: Disk, n: nat)
    requires disk.spool.Present? && n !in disk.restoring
    requires next.spool == Absent && next.restoring == disk.restoring[n := disk.spool.contents]
    requires next.aside == disk.aside
    ensures forall e :: OnDisk(disk, e) ==> OnDisk(next, e)
    ensures forall x :: ScrapOnDisk(x, disk) ==> ScrapOnDisk(x, next)
  {
    AsideGrows(disk, next);
    forall e | OnDisk(disk, e)
      ensures OnDisk(next, e)
    {
      if e in InSlot(disk.spool) {
        assert n in next.restoring && e in Stored(next.restoring[n]);
      } else {
        var k :| k in disk.restoring && e in Stored(disk.restoring[k]);
        assert k in next.restoring && next.restoring[k] == disk.restoring[k];
      }
    }
    forall x | ScrapOnDisk(x, disk) && !IsAside(x, disk)
      ensures ScrapOnDisk(x, next)
    {
      if IsScrapOf(x, disk.spool.contents) {
        assert n in next.restoring && next.restoring[n] == disk.spool.contents;
      } else {
        var k :| k in disk.restoring && IsScrapOf(x, disk.restoring[k]);
        assert k in next.restoring && next.restoring[k] == disk.restoring[k];
      }
    }
  }

  ghost function Taken(names: seq<nat>): set<nat> {
    set n | n in names
  }

  lemma TakenOneMore(files: map<nat, Contents>, names: seq<nat>, i: nat)
    requires i < |names|
    ensures files - Taken(names[..i]) - {names[i]} == files - Taken(names[..i + 1])
  {
    assert names[..i + 1] == names[..i] + [names[i]];
    assert Taken(names[..i + 1]) == Taken(names[..i]) + {names[i]};
  }

  lemma LeftoversTaken(files: map<nat, Contents>, multiWorker: bool, names: seq<nat>)
    requires names == if multiWorker then [] else Sorted(files.Keys)
    ensures files - Taken(names) == if multiWorker then files else map[]
  {
  }

  /**
   * What a shutdown saved on top of earlier entries comes back at the next start: in each
   * queue first what interrupted restores left, then the earlier items, then its own, all in
   * their order; only the cap takes any away.
   */
  lemma SavedQueuesComeBack(queues: Queues, earlier: seq<Entry>, disk: Disk, q: Queue)
    requires InSlot(disk.spool) == Capped(earlier + Drained(queues))
    ensures var leftovers := Items(q, Backlog(disk.restoring, Sorted(disk.restoring.Keys)));
      && leftovers <= EMPTY.Fed(Found(disk, false)).Of(q) <= leftovers + Items(q, earlier) + queues.Of(q)
      && (|earlier + Drained(queues)| <= SPOOL_MAX_ITEMS ==>
            EMPTY.Fed(Found(disk, false)).Of(q) == leftovers + Items(q, earlier) + queues.Of(q))
  {
    var all := earlier + Drained(queues);
    var leftovers := Backlog(disk.restoring, Sorted(disk.restoring.Keys));
    FedFromEmpty(q, leftovers + Capped(all));
    ItemsOfBoth(q, leftovers, Capped(all));
    ItemsOfBoth(q, earlier, Drained(queues));
    DrainedItems(q, queues);
    CappedItems(q, all);
    InFront(Items(q, leftovers), Items(q, Capped(all)), Items(q, earlier), queues.Of(q));
  }

  lemma InFront(front: seq<Item>, kept: seq<Item>, a: seq<Item>, b: seq<Item>)
    requires kept <= a + b
    ensures front <= front + kept <= front + a + b
    ensures kept == a + b ==> front + kept == front + a + b
  {
    assert front + (a + b) == front + a + b;
  }

  lemma FedFromEmpty(q: Queue, entries: seq<Entry>)
    ensures EMPTY.Fed(entries).Of(q) == Items(q, entries)
  {
    assert [] + Items(q, entries) == Items(q, entries);
  }

  lemma DrainedItems(q: Queue, queues: Queues)
    ensures Items(q, Drained(queues)) == queues.Of(q)
  {
    DrainedRoundTrip(queues);
    FedFromEmpty(q, Drained(queues));
  }

  lemma CappedItems(q: Queue, all: seq<Entry>)
    ensures Items(q, Capped(all)) <= Items(q, all)
  {
    var cut := all[|Capped(all)|..];
    assert all == Capped(all) + cut;
    ItemsOfBoth(q, Capped(all), cut);
  }

  /**
   * A restore that fails at its first entry puts its file in front of the spool without a cap;
   * if that is more than the cap, the next shutdown with anything to save keeps the first
   * entries only and cuts the others, saved before as they were.
   */
  method FailedRestoreThenShutdown(spool: Spool, n: nat) returns (ok: bool)
    requires spool.Valid() && n in spool.disk.restoring && Drained(spool.queues) != []
    requires |Stored(spool.disk.restoring[n]) + InSlot(spool.disk.spool)| > SPOOL_MAX_ITEMS
    modifies spool
    ensures spool.Valid()
    ensures ok ==>
              InSlot(spool.disk.spool)
              == (Stored(old(spool.disk.restoring)[n]) + InSlot(old(spool.disk.spool)))[..SPOOL_MAX_ITEMS]
  {
    ghost var file, earlier, drained := Stored(spool.disk.restoring[n]), InSlot(spool.disk.spool), Drained(spool.queues);
    if spool.disk.restoring[n].Broken? {
      return false;
    }
    var contents;
    ok, contents := spool.CheckEntries(spool.disk.restoring[n].raw);
    if !ok {
      return;
    }
    ok := spool.PutBack(n, contents, 0);
    if !ok {
      return;
    }
    assert contents[0..] == file;
    ok := spool.PersistBacklog();
    assert (file + earlier + drained)[..SPOOL_MAX_ITEMS] == (file + earlier)[..SPOOL_MAX_ITEMS];
  }

  /** The smallest such case: a file and a spool within the cap, and the saved entry that is then cut. */
  lemma SavedEntriesCanBeCut() returns (file: seq<Entry>, spool: seq<Entry>, e: Entry)
    ensures |file| <= SPOOL_MAX_ITEMS && |spool| <= SPOOL_MAX_ITEMS && |file + spool| > SPOOL_MAX_ITEMS
    ensures e in spool && e !in (file + spool)[..SPOOL_MAX_ITEMS]
  {
    file := [Entry(Webhooks, 0)];
    spool := seq(SPOOL_MAX_ITEMS, i requires 0 <= i < SPOOL_MAX_ITEMS => Entry(Webhooks, i + 1));
    e := spool[SPOOL_MAX_ITEMS - 1];
    var kept := (file + spool)[..SPOOL_MAX_ITEMS];
    forall i | 0 <= i < |kept|
      ensures kept[i] == Entry(Webhooks, i)
    {
      assert kept[i] == (file + spool)[i];
    }
  }

  /** A shutdown, and the start of the next process on the disk it left. */
  method Restart(spool: Spool) returns (next: Spool, ok: bool)
    requires spool.Valid()
    modifies spool
    ensures next.Valid() && fresh(next) && next.trace[0].saved == spool.saved
    ensures ok && |InSlot(old(spool.disk.spool)) + Drained(old(spool.queues))| <= SPOOL_MAX_ITEMS ==>
              forall q :: next.queues.Of(q)
                       == Items(q, Backlog(old(spool.disk.restoring), Sorted(old(spool.disk.restoring).Keys)))
                          + Items(q, InSlot(old(spool.disk.spool))) + old(spool.queues).Of(q)
  {
    ghost var queues, earlier := spool.queues, InSlot(spool.disk.spool);
    ok := spool.PersistBacklog();
    next := new Spool.Start(spool.disk, spool.clock, spool.Now());
    if ok {
      assert Drained(queues) == [] ==> earlier + Drained(queues) == earlier;
      if |earlier + Drained(queues)| <= SPOOL_MAX_ITEMS {
        forall q
          ensures EMPTY.Fed(Found(next.disk, false)).Of(q)
               == Items(q, Backlog(next.disk.restoring, Sorted(next.disk.restoring.Keys))) + Items(q, earlier) + queues.Of(q)
        {
          SavedQueuesComeBack(queues, earlier, next.disk, q);
        }
      }
      var restored, _, _ := next.Restore(false);
      ok := restored;
    }
  }

  lemma BacklogGrows(files: map<nat, Contents>, names: seq<nat>, i: nat)
    requires (forall n :: n in names ==> n in files) && i < |names|
    ensures (forall n :: n in names[..i] ==> n in files) && (forall n :: n in names[..i + 1] ==> n in files)
    ensures Backlog(files, names[..i + 1]) == Backlog(files, names[..i]) + Stored(files[names[i]])
  {
    assert names[..i + 1][..i] == names[..i];
  }

  /** Without one restoring file, only what was in it can be missing. */
  lemma GoneIsOnlyThere(disk: Disk, next: Disk, n: nat)
    requires n in disk.restoring && next.spool == disk.spool && next.restoring == disk.restoring - {n}
    requires disk.aside <= next.aside && ScrapIsAside(disk.restoring[n], next)
    ensures forall e :: OnDisk(disk, e) ==> OnDisk(next, e) || e in Stored(disk.restoring[n])
    ensures forall x :: ScrapOnDisk(x, disk) ==> ScrapOnDisk(x, next)
  {
    AsideGrows(disk, next);
    forall e | OnDisk(disk, e) && e !in Stored(disk.restoring[n])
      ensures OnDisk(next, e)
    {
      if e !in InSlot(disk.spool) {
        var k :| k in disk.restoring && e in Stored(disk.restoring[k]);
        assert k in next.restoring;
      }
    }
    forall x | ScrapOnDisk(x, disk) && !IsAside(x, disk)
      ensures ScrapOnDisk(x, next)
    {
      if k :| k in disk.restoring && IsScrapOf(x, disk.restoring[k]) {
        assert k != n ==> k in next.restoring && next.restoring[k] == disk.restoring[k];
      }
    }
  }
}
