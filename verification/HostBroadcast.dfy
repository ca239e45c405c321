/**
 * Publishing host changes to all workers (app/core/hosts.py): one worker publishes under its
 * publish lock and applies each change itself, every worker hears the messages in order and
 * applies them without a stamp, and the publisher hears its own messages late.
 */
module HostBroadcast {
  import opened HostCache

  type Worker = nat

  type Item = (HostId, Entry)

  /** Who holds the publish lock. An update has sent `items[..sent]`; a removal takes its stamp once sent. */
  datatype Lock =
    | Free
    | Publishing(stamp: nat, items: seq<Item>, sent: nat)
    | Removing(h: HostId, published: bool)

  /**
   * `log` holds the messages sent so far and `logStamps` the stamps of their operations.
   * `caches` are the hosts of every worker and `heard` how many messages each has applied;
   * `stamps`, `stamp` and `waiting` (operations with a stamp and a view) are the publisher's.
   * `claimed` is the last entry that the publisher installed under a stamp.
   */
  datatype State = State(
    publisher: Worker, stamps: Stamps, stamp: nat, waiting: map<nat, nat>, lock: Lock,
    log: seq<Item>, logStamps: seq<nat>, caches: map<Worker, Hosts>, heard: map<Worker, nat>, claimed: View)

  datatype Step =
    | TakeStamp(i: nat)
    | Acquire(i: nat, items: seq<Item>)
    | AcquireRemoval(h: HostId)
    | Publish
    | StampRemoval
    | ApplyLocally
    | Hear(w: Worker)

  /** The items an operation may still send: a later operation on the host makes it drop one. */
  function StillCurrent(stamps: Stamps, stamp: nat, items: seq<Item>): (current: seq<Item>)
    ensures forall k :: 0 <= k < |current| ==> current[k] in items && stamp >= StampOf(stamps, current[k].0)
    ensures forall item :: item in items && stamp >= StampOf(stamps, item.0) ==> item in current
  {
    if items == [] then
      []
    else
      var rest := StillCurrent(stamps, stamp, items[1..]);
      assert items == [items[0]] + items[1..];
      if Claims(stamps, items[0].0, Stamped(stamp)) then [items[0]] + rest else rest
  }

  /** The last entry for each host. */
  function LastEntries(items: seq<Item>): View {
    if items == [] then
      map[]
    else
      LastEntries(items[..|items| - 1])[items[|items| - 1].0 := items[|items| - 1].1]
  }

  ghost predicate Starts(s: State) {
    && s.lock == Free && s.log == [] && s.logStamps == [] && s.waiting == map[] && s.claimed == map[]
    && s.publisher in s.caches && s.heard.Keys == s.caches.Keys
    && (forall w :: w in s.heard ==> s.heard[w] == 0)
    && forall h :: StampOf(s.stamps, h) <= s.stamp
  }

  predicate Enabled(s: State, step: Step) {
    match step
    case TakeStamp(i) => i !in s.waiting
    case Acquire(i, _) => s.lock.Free? && i in s.waiting
    case AcquireRemoval(_) => s.lock.Free?
    case Publish => (s.lock.Publishing? && s.lock.sent < |s.lock.items|) || (s.lock.Removing? && !s.lock.published)
    case StampRemoval => s.lock.Removing? && s.lock.published
    case ApplyLocally => s.lock.Publishing? && s.lock.sent == |s.lock.items| && s.publisher in s.caches
    case Hear(w) => w in s.caches && w in s.heard && s.heard[w] < |s.log|
  }

  function Apply(s: State, step: Step): State
    requires Enabled(s, step)
  {
    match step
    case TakeStamp(i) => s.(stamp := s.stamp + 1, waiting := s.waiting[i := s.stamp + 1])
    case Acquire(i, items) =>
      s.(waiting := s.waiting - {i},
         lock := Publishing(s.waiting[i], StillCurrent(s.stamps, s.waiting[i], items), 0))
    case AcquireRemoval(h) => s.(lock := Removing(h, false))
    case Publish =>
      if s.lock.Publishing? then
        s.(log := s.log + [s.lock.items[s.lock.sent]],
           logStamps := s.logStamps + [s.lock.stamp],
           lock := s.lock.(sent := s.lock.sent + 1))
      else
        s.(log := s.log + [(s.lock.h, Absent)], lock := s.lock.(published := true))
    case StampRemoval =>
      s.(stamp := s.stamp + 1,
         logStamps := s.logStamps + [s.stamp + 1],
         lock := Publishing(s.stamp + 1, [(s.lock.h, Absent)], 1))
    case ApplyLocally =>
      var view := LastEntries(s.lock.items);
      var own := Stamped(s.lock.stamp);
      s.(caches := s.caches[s.publisher := HostsAfter(s.caches[s.publisher], s.stamps, own, view)],
         stamps := StampsAfter(s.stamps, own, view),
         claimed := s.claimed + view,
         lock := Free)
    case Hear(w) =>
      var item := s.log[s.heard[w]];
      s.(caches := s.caches[w := HostsAfter(s.caches[w], s.stamps, NoStamp, map[item.0 := item.1])],
         heard := s.heard[w := s.heard[w] + 1])
  }

  ghost predicate Runs(s: State, steps: seq<Step>, t: State)
    decreases |steps|
  {
    if steps == [] then s == t else Enabled(s, steps[0]) && Runs(Apply(s, steps[0]), steps[1..], t)
  }

  // ------------------------------------------------------------------ the stamps of the messages

  /** Messages for one host are sent in the order of their stamps. */
  ghost predicate InStampOrder(log: seq<Item>, logStamps: seq<nat>)
    requires |logStamps| <= |log|
  {
    forall j, k :: 0 <= j < k < |logStamps| && log[j].0 == log[k].0 ==> logStamps[j] <= logStamps[k]
  }

  ghost predicate IsBeingSent(lock: Lock, h: HostId, stamp: nat) {
    && lock.Publishing? && lock.sent <= |lock.items| && stamp == lock.stamp
    && exists n :: 0 <= n < lock.sent && lock.items[n].0 == h
  }

  /** A sent message's stamp is in the publisher's table, or its operation still holds the lock. */
  ghost predicate StampIsKept(stamps: Stamps, lock: Lock, h: HostId, stamp: nat) {
    stamp <= StampOf(stamps, h) || IsBeingSent(lock, h, stamp)
  }

  ghost predicate StampsAreKept(s: State) {
    && |s.log| == |s.logStamps| + (if s.lock.Removing? && s.lock.published then 1 else 0)
    && (s.lock.Removing? && s.lock.published ==> s.log[|s.log| - 1] == (s.lock.h, Absent))
    && InStampOrder(s.log, s.logStamps)
    && AllStampsAreKept(s.stamps, s.lock, s.log, s.logStamps)
  }

  /** What is being sent is current, and what was sent of it ends the log. */
  ghost predicate SendsCurrent(stamps: Stamps, stamp: nat, lock: Lock, log: seq<Item>) {
    lock.Publishing? ==>
      && lock.stamp <= stamp
      && lock.sent <= |lock.items|
      && (forall n :: 0 <= n < |lock.items| ==> lock.stamp >= StampOf(stamps, lock.items[n].0))
      && lock.sent <= |log| && log[|log| - lock.sent..] == lock.items[..lock.sent]
  }

  ghost predicate StampsAreHandedOut(stamps: Stamps, stamp: nat, waiting: map<nat, nat>) {
    && (forall h :: StampOf(stamps, h) <= stamp)
    && (forall i :: i in waiting ==> waiting[i] <= stamp)
  }

  ghost predicate LockIsKept(s: State) {
    StampsAreHandedOut(s.stamps, s.stamp, s.waiting) && SendsCurrent(s.stamps, s.stamp, s.lock, s.log)
  }

  lemma LastEntriesHosts(items: seq<Item>)
    ensures forall h :: h in LastEntries(items) <==> exists n :: 0 <= n < |items| && items[n].0 == h
  {
    if items != [] {
      var rest := items[..|items| - 1];
      LastEntriesHosts(rest);
      forall h
        ensures h in LastEntries(items) <==> exists n :: 0 <= n < |items| && items[n].0 == h
      {
        if n :| 0 <= n < |items| && items[n].0 == h {
          assert n < |rest| ==> rest[n].0 == h;
        }
        if n :| 0 <= n < |rest| && rest[n].0 == h {
          assert items[n].0 == h;
        }
        assert items[|items| - 1].0 == h ==> exists n :: 0 <= n < |items| && items[n].0 == h;
      }
    }
  }

  lemma SuffixGrows(log: seq<Item>, items: seq<Item>, sent: nat)
    requires sent < |items| && sent <= |log| && log[|log| - sent..] == items[..sent]
    ensures var more := log + [items[sent]]; more[|more| - (sent + 1)..] == items[..sent + 1]
  {
    var more := log + [items[sent]];
    assert items[..sent + 1] == items[..sent] + [items[sent]];
    assert more[|log| - sent..] == log[|log| - sent..] + [items[sent]];
  }

  lemma SendsOneMore(stamps: Stamps, stamp: nat, lock: Lock, log: seq<Item>)
    requires SendsCurrent(stamps, stamp, lock, log) && lock.Publishing? && lock.sent < |lock.items|
    ensures SendsCurrent(stamps, stamp, lock.(sent := lock.sent + 1), log + [lock.items[lock.sent]])
  {
    SuffixGrows(log, lock.items, lock.sent);
  }

  lemma PublishKeepsLock(s: State)
    requires LockIsKept(s) && Enabled(s, Publish)
    ensures LockIsKept(Apply(s, Publish))
  {
    if s.lock.Publishing? {
      SendsOneMore(s.stamps, s.stamp, s.lock, s.log);
    }
  }

  ghost predicate AllStampsAreKept(stamps: Stamps, lock: Lock, log: seq<Item>, logStamps: seq<nat>)
    requires |logStamps| <= |log|
  {
    forall k :: 0 <= k < |logStamps| ==> StampIsKept(stamps, lock, log[k].0, logStamps[k])
  }

  /** The next message of an operation has no smaller stamp than those before it for its host. */
  lemma NextIsInOrder(stamps: Stamps, lock: Lock, log: seq<Item>, logStamps: seq<nat>)
    requires |log| == |logStamps| && AllStampsAreKept(stamps, lock, log, logStamps)
    requires lock.Publishing? && lock.sent < |lock.items| && lock.stamp >= StampOf(stamps, lock.items[lock.sent].0)
    ensures var next, h := lock.(sent := lock.sent + 1), lock.items[lock.sent].0;
      && AllStampsAreKept(stamps, next, log, logStamps)
      && StampIsKept(stamps, next, h, lock.stamp)
      && forall k :: 0 <= k < |logStamps| && log[k].0 == h ==> logStamps[k] <= lock.stamp
  {
    var next := lock.(sent := lock.sent + 1);
    assert next.items[lock.sent].0 == lock.items[lock.sent].0;
    forall k | 0 <= k < |logStamps|
      ensures StampIsKept(stamps, next, log[k].0, logStamps[k])
      ensures log[k].0 == lock.items[lock.sent].0 ==> logStamps[k] <= lock.stamp
    {
      assert StampIsKept(stamps, lock, log[k].0, logStamps[k]);
    }
  }

  lemma OrderGrows(log: seq<Item>, logStamps: seq<nat>, item: Item, stamp: nat)
    requires |log| == |logStamps| && InStampOrder(log, logStamps)
    requires forall k :: 0 <= k < |logStamps| && log[k].0 == item.0 ==> logStamps[k] <= stamp
    ensures InStampOrder(log + [item], logStamps + [stamp])
  {
  }

  lemma KeptGrows(stamps: Stamps, lock: Lock, log: seq<Item>, logStamps: seq<nat>, item: Item, stamp: nat)
    requires |log| == |logStamps| && AllStampsAreKept(stamps, lock, log, logStamps)
    requires StampIsKept(stamps, lock, item.0, stamp)
    ensures AllStampsAreKept(stamps, lock, log + [item], logStamps + [stamp])
  {
  }

  /** A removal's message has its stamp still to come, and no update is being sent meanwhile. */
  lemma RemovalIsSent(stamps: Stamps, lock: Lock, next: Lock, log: seq<Item>, logStamps: seq<nat>, item: Item)
    requires |log| == |logStamps| && InStampOrder(log, logStamps) && AllStampsAreKept(stamps, lock, log, logStamps)
    requires lock.Removing? && next.Removing?
    ensures InStampOrder(log + [item], logStamps) && AllStampsAreKept(stamps, next, log + [item], logStamps)
  {
    forall k | 0 <= k < |logStamps|
      ensures StampIsKept(stamps, next, (log + [item])[k].0, logStamps[k])
    {
      assert StampIsKept(stamps, lock, log[k].0, logStamps[k]);
    }
  }

  lemma PublishKeepsStamps(s: State)
    requires StampsAreKept(s) && LockIsKept(s) && Enabled(s, Publish)
    ensures StampsAreKept(Apply(s, Publish))
  {
    var t := Apply(s, Publish);
    if s.lock.Publishing? {
      var item := s.lock.items[s.lock.sent];
      NextIsInOrder(s.stamps, s.lock, s.log, s.logStamps);
      OrderGrows(s.log, s.logStamps, item, s.lock.stamp);
      KeptGrows(s.stamps, t.lock, s.log, s.logStamps, item, s.lock.stamp);
    } else {
      RemovalIsSent(s.stamps, s.lock, t.lock, s.log, s.logStamps, (s.lock.h, Absent));
    }
  }

  lemma StampRemovalKeepsStamps(s: State)
    requires StampsAreKept(s) && LockIsKept(s) && Enabled(s, StampRemoval)
    ensures StampsAreKept(Apply(s, StampRemoval)) && LockIsKept(Apply(s, StampRemoval))
  {
    var t := Apply(s, StampRemoval);
    var n := |s.logStamps|;
    forall h: HostId
      ensures StampOf(t.stamps, h) <= t.stamp
    {
      assert StampOf(s.stamps, h) <= s.stamp;
    }
    forall k | 0 <= k < |t.logStamps|
      ensures StampIsKept(t.stamps, t.lock, t.log[k].0, t.logStamps[k])
      ensures t.logStamps[k] <= t.logStamps[n]
    {
      if k < n {
        assert StampIsKept(s.stamps, s.lock, s.log[k].0, s.logStamps[k]);
      } else {
        assert t.lock.items[0].0 == t.log[n].0;
      }
    }
  }

  lemma ApplyLocallyKeepsStamps(s: State)
    requires StampsAreKept(s) && LockIsKept(s) && Enabled(s, ApplyLocally)
    ensures StampsAreKept(Apply(s, ApplyLocally)) && LockIsKept(Apply(s, ApplyLocally))
  {
    var t := Apply(s, ApplyLocally);
    LastEntriesHosts(s.lock.items);
    forall h: HostId
      ensures StampOf(s.stamps, h) <= StampOf(t.stamps, h) <= t.stamp
      ensures h in LastEntries(s.lock.items) ==> StampOf(t.stamps, h) == s.lock.stamp
    {
      assert StampOf(s.stamps, h) <= s.stamp;
    }
    forall k | 0 <= k < |t.logStamps|
      ensures StampIsKept(t.stamps, t.lock, t.log[k].0, t.logStamps[k])
    {
      assert StampIsKept(s.stamps, s.lock, s.log[k].0, s.logStamps[k]);
    }
  }

  lemma OtherStepsKeepStamps(s: State, step: Step)
    requires StampsAreKept(s) && LockIsKept(s) && Enabled(s, step)
    requires !step.Publish? && !step.StampRemoval? && !step.ApplyLocally?
    ensures StampsAreKept(Apply(s, step)) && LockIsKept(Apply(s, step))
  {
    var t := Apply(s, step);
    forall h: HostId
      ensures StampOf(t.stamps, h) <= t.stamp
    {
      assert StampOf(s.stamps, h) <= s.stamp;
    }
    forall k | 0 <= k < |t.logStamps|
      ensures StampIsKept(t.stamps, t.lock, t.log[k].0, t.logStamps[k])
    {
      assert StampIsKept(s.stamps, s.lock, s.log[k].0, s.logStamps[k]);
    }
  }

  // ------------------------------------------------------------------ what the workers hold

  /** The last message for the host, if any. */
  function LastOr(log: seq<Item>, h: HostId, otherwise: Entry): Entry {
    if log == [] then
      otherwise
    else if log[|log| - 1].0 == h then
      log[|log| - 1].1
    else
      LastOr(log[..|log| - 1], h, otherwise)
  }

  ghost predicate Mentions(log: seq<Item>, h: HostId) {
    exists k :: 0 <= k < |log| && log[k].0 == h
  }

  lemma {:induction false} LastOfMentioned(log: seq<Item>, h: HostId, a: Entry, b: Entry)
    requires Mentions(log, h)
    ensures LastOr(log, h, a) == LastOr(log, h, b)
  {
    if log[|log| - 1].0 != h {
      var k :| 0 <= k < |log| && log[k].0 == h;
      assert log[..|log| - 1][k].0 == h;
      LastOfMentioned(log[..|log| - 1], h, a, b);
    }
  }

  lemma {:induction false} LastOfSuffix(log: seq<Item>, items: seq<Item>, h: HostId, otherwise: Entry)
    ensures LastOr(log + items, h, otherwise)
         == if h in LastEntries(items) then LastEntries(items)[h] else LastOr(log, h, otherwise)
  {
    if items == [] {
      assert log + items == log;
    } else {
      var all := log + items;
      assert all[..|all| - 1] == log + items[..|items| - 1];
      LastOfSuffix(log, items[..|items| - 1], h, otherwise);
    }
  }

  /** One worker's entry for one host: others follow what they heard, the publisher runs ahead of it. */
  ghost predicate HoldsAt(start: map<Worker, Hosts>, s: State, w: Worker, h: HostId)
    requires w in start && w in s.caches && w in s.heard && s.heard[w] <= |s.log|
  {
    if w == s.publisher then
      !Mentions(s.log[s.heard[w]..], h) ==> Lookup(s.caches[w], h) == LastOr(s.log, h, Lookup(start[w], h))
    else
      Lookup(s.caches[w], h) == LastOr(s.log[..s.heard[w]], h, Lookup(start[w], h))
  }

  /** The operation holding the lock has sent a message for the host and not applied it. */
  ghost predicate IsAhead(lock: Lock, h: HostId) {
    match lock
    case Free => false
    case Publishing(_, items, sent) => exists n :: 0 <= n < sent && n < |items| && items[n].0 == h
    case Removing(removed, published) => published && removed == h
  }

  ghost predicate ClaimedAt(s: State, h: HostId) {
    !IsAhead(s.lock, h) ==>
      && (h in s.claimed <==> Mentions(s.log, h))
      && (h in s.claimed ==> s.claimed[h] == LastOr(s.log, h, Absent))
  }

  ghost predicate CachesAreKept(start: map<Worker, Hosts>, s: State) {
    && s.caches.Keys == start.Keys && s.heard.Keys == start.Keys && s.publisher in start
    && (forall w :: w in s.heard ==> s.heard[w] <= |s.log|)
    && (forall w, h :: w in start ==> HoldsAt(start, s, w, h))
    && (forall h :: ClaimedAt(s, h))
  }

  lemma {:induction false} MentionsOneMore(log: seq<Item>, item: Item, h: HostId)
    ensures Mentions(log + [item], h) <==> Mentions(log, h) || item.0 == h
    ensures Mentions([item] + log, h) <==> Mentions(log, h) || item.0 == h
  {
    assert (log + [item])[|log|] == item && ([item] + log)[0] == item;
    if k :| 0 <= k < |log| && log[k].0 == h {
      assert (log + [item])[k].0 == h && ([item] + log)[k + 1].0 == h;
    }
    if k :| 0 <= k < |log + [item]| && (log + [item])[k].0 == h {
      assert k < |log| ==> log[k].0 == h;
    }
    if k :| 0 <= k < |[item] + log| && ([item] + log)[k].0 == h {
      assert k > 0 ==> log[k - 1].0 == h;
    }
  }

  lemma LastOneMore(log: seq<Item>, item: Item, h: HostId, otherwise: Entry)
    ensures LastOr(log + [item], h, otherwise) == if item.0 == h then item.1 else LastOr(log, h, otherwise)
  {
    assert (log + [item])[..|log|] == log;
  }

  /** A message with no later one for its host is the host's last. */
  lemma LastMention(log: seq<Item>, n: nat, h: HostId, otherwise: Entry)
    requires n < |log| && log[n].0 == h && !Mentions(log[n + 1..], h)
    ensures LastOr(log, h, otherwise) == log[n].1
  {
    LastEntriesHosts(log[n + 1..]);
    assert log == log[..n + 1] + log[n + 1..];
    LastOfSuffix(log[..n + 1], log[n + 1..], h, otherwise);
    assert log[..n + 1] == log[..n] + [log[n]];
    LastOneMore(log[..n], log[n], h, otherwise);
  }

  /** What the publisher has yet to hear shrinks by the message it hears. */
  lemma PublisherHears(log: seq<Item>, n: nat, h: HostId, now: Entry, otherwise: Entry)
    requires n < |log|
    requires !Mentions(log[n..], h) ==> now == LastOr(log, h, otherwise)
    ensures !Mentions(log[n + 1..], h) ==> (if log[n].0 == h then log[n].1 else now) == LastOr(log, h, otherwise)
  {
    assert log[n..] == [log[n]] + log[n + 1..];
    MentionsOneMore(log[n + 1..], log[n], h);
    if log[n].0 == h && !Mentions(log[n + 1..], h) {
      LastMention(log, n, h, otherwise);
    }
  }

  lemma HearsOne(hosts: Hosts, stamps: Stamps, item: Item, h: HostId)
    ensures Lookup(HostsAfter(hosts, stamps, NoStamp, map[item.0 := item.1]), h)
         == if item.0 == h then item.1 else Lookup(hosts, h)
  {
  }

  lemma HearKeepsHolds(start: map<Worker, Hosts>, s: State, w: Worker, h: HostId)
    requires CachesAreKept(start, s) && Enabled(s, Hear(w))
    ensures HoldsAt(start, Apply(s, Hear(w)), w, h)
  {
    var t := Apply(s, Hear(w));
    var n, item := s.heard[w], s.log[s.heard[w]];
    assert HoldsAt(start, s, w, h);
    HearsOne(s.caches[w], s.stamps, item, h);
    if w == s.publisher {
      PublisherHears(s.log, n, h, Lookup(s.caches[w], h), Lookup(start[w], h));
    } else {
      assert s.log[..n + 1] == s.log[..n] + [item];
      LastOneMore(s.log[..n], item, h, Lookup(start[w], h));
    }
  }

  lemma HearKeepsCaches(start: map<Worker, Hosts>, s: State, w: Worker)
    requires CachesAreKept(start, s) && Enabled(s, Hear(w))
    ensures CachesAreKept(start, Apply(s, Hear(w)))
  {
    var t := Apply(s, Hear(w));
    forall v, h | v in start
      ensures HoldsAt(start, t, v, h)
    {
      if v == w {
        HearKeepsHolds(start, s, w, h);
      } else {
        assert HoldsAt(start, s, v, h);
      }
    }
    forall h
      ensures ClaimedAt(t, h)
    {
      assert ClaimedAt(s, h);
    }
  }

  /** Sending a message leaves the publisher ahead of what it has heard, and others where they were. */
  lemma PublishKeepsCaches(start: map<Worker, Hosts>, s: State)
    requires CachesAreKept(start, s) && LockIsKept(s) && Enabled(s, Publish)
    ensures CachesAreKept(start, Apply(s, Publish))
  {
    var t := Apply(s, Publish);
    var item: Item := t.log[|s.log|];
    assert t.log == s.log + [item];
    forall w, h | w in start
      ensures HoldsAt(start, t, w, h)
    {
      assert HoldsAt(start, s, w, h);
      var n := s.heard[w];
      assert t.log[..n] == s.log[..n] && t.log[n..] == s.log[n..] + [item];
      MentionsOneMore(s.log[n..], item, h);
      LastOneMore(s.log, item, h, Lookup(start[w], h));
    }
    forall h
      ensures ClaimedAt(t, h)
    {
      assert ClaimedAt(s, h);
      PublishMovesAhead(s, h);
      MentionsOneMore(s.log, item, h);
      LastOneMore(s.log, item, h, Absent);
    }
  }

  lemma PublishMovesAhead(s: State, h: HostId)
    requires Enabled(s, Publish)
    ensures var t := Apply(s, Publish);
      IsAhead(t.lock, h) <==> IsAhead(s.lock, h) || t.log[|s.log|].0 == h
  {
    var t := Apply(s, Publish);
    if s.lock.Publishing? {
      assert t.lock.items[s.lock.sent] == t.log[|s.log|];
    }
  }

  /** Everything the operation sent is at the end of the log, so its view is what was sent last. */
  lemma SentLast(s: State, h: HostId, otherwise: Entry)
    requires LockIsKept(s) && Enabled(s, ApplyLocally)
    ensures var view := LastEntries(s.lock.items);
      h in view ==> LastOr(s.log, h, otherwise) == view[h] && Mentions(s.log, h) && Claims(s.stamps, h, Stamped(s.lock.stamp))
  {
    var items, n := s.lock.items, |s.log| - |s.lock.items|;
    LastEntriesHosts(items);
    assert items[..|items|] == items && s.log == s.log[..n] + items;
    LastOfSuffix(s.log[..n], items, h, otherwise);
    if k :| 0 <= k < |items| && items[k].0 == h {
      assert s.log[n + k].0 == h;
    }
  }

  lemma ApplyLocallyKeepsClaimed(s: State, h: HostId)
    requires ClaimedAt(s, h) && LockIsKept(s) && Enabled(s, ApplyLocally)
    ensures ClaimedAt(Apply(s, ApplyLocally), h)
  {
    LastEntriesHosts(s.lock.items);
    SentLast(s, h, Absent);
  }

  lemma ApplyLocallyKeepsHolds(start: map<Worker, Hosts>, s: State, w: Worker, h: HostId)
    requires CachesAreKept(start, s) && LockIsKept(s) && Enabled(s, ApplyLocally) && w in start
    ensures HoldsAt(start, Apply(s, ApplyLocally), w, h)
  {
    var t := Apply(s, ApplyLocally);
    assert HoldsAt(start, s, w, h);
    SentLast(s, h, Lookup(start[w], h));
    if w == s.publisher {
      var view := LastEntries(s.lock.items);
      assert Lookup(t.caches[w], h) == EntryAfter(s.caches[w], s.stamps, Stamped(s.lock.stamp), view, h);
    }
  }

  lemma ApplyLocallyKeepsCaches(start: map<Worker, Hosts>, s: State)
    requires CachesAreKept(start, s) && LockIsKept(s) && Enabled(s, ApplyLocally)
    ensures CachesAreKept(start, Apply(s, ApplyLocally))
  {
    var t := Apply(s, ApplyLocally);
    forall w, h | w in start
      ensures HoldsAt(start, t, w, h)
    {
      ApplyLocallyKeepsHolds(start, s, w, h);
    }
    forall h
      ensures ClaimedAt(t, h)
    {
      assert ClaimedAt(s, h);
      ApplyLocallyKeepsClaimed(s, h);
    }
  }

  lemma OtherStepsKeepCaches(start: map<Worker, Hosts>, s: State, step: Step)
    requires CachesAreKept(start, s) && Enabled(s, step)
    requires !step.Publish? && !step.ApplyLocally? && !step.Hear?
    ensures CachesAreKept(start, Apply(s, step))
  {
    var t := Apply(s, step);
    forall w, h | w in start
      ensures HoldsAt(start, t, w, h)
    {
      assert HoldsAt(start, s, w, h);
    }
    forall h
      ensures ClaimedAt(t, h)
    {
      assert ClaimedAt(s, h);
      assert step.StampRemoval? ==> t.lock.items[0].0 == s.lock.h;
    }
  }

  // ------------------------------------------------------------------ every run

  ghost predicate Inv(start: map<Worker, Hosts>, s: State) {
    StampsAreKept(s) && LockIsKept(s) && CachesAreKept(start, s)
  }

  lemma StepKeeps(start: map<Worker, Hosts>, s: State, step: Step)
    requires Inv(start, s) && Enabled(s, step)
    ensures Inv(start, Apply(s, step))
  {
    match step
    case Publish =>
      PublishKeepsLock(s);
      PublishKeepsStamps(s);
      PublishKeepsCaches(start, s);
    case ApplyLocally =>
      ApplyLocallyKeepsStamps(s);
      ApplyLocallyKeepsCaches(start, s);
    case StampRemoval =>
      StampRemovalKeepsStamps(s);
      OtherStepsKeepCaches(start, s, step);
    case Hear(w) =>
      OtherStepsKeepStamps(s, step);
      HearKeepsCaches(start, s, w);
    case TakeStamp(_) =>
      OtherStepsKeepStamps(s, step);
      OtherStepsKeepCaches(start, s, step);
    case Acquire(_, _) =>
      OtherStepsKeepStamps(s, step);
      OtherStepsKeepCaches(start, s, step);
    case AcquireRemoval(_) =>
      OtherStepsKeepStamps(s, step);
      OtherStepsKeepCaches(start, s, step);
  }

  lemma {:induction false} RunKeeps(start: map<Worker, Hosts>, s: State, steps: seq<Step>, t: State)
    requires Inv(start, s) && Runs(s, steps, t)
    ensures Inv(start, t) && t.publisher == s.publisher
    decreases |steps|
  {
    if steps != [] {
      StepKeeps(start, s, steps[0]);
      RunKeeps(start, Apply(s, steps[0]), steps[1..], t);
    }
  }

  lemma StartsKept(s: State)
    requires Starts(s)
    ensures Inv(s.caches, s)
  {
    forall w, h | w in s.caches
      ensures HoldsAt(s.caches, s, w, h)
    {
      assert s.log[..s.heard[w]] == s.log;
    }
  }

  /** At every point of every run, the messages sent for one host are in the order of their stamps. */
  lemma MessagesAreInStampOrder(s: State, steps: seq<Step>, t: State)
    requires Starts(s) && Runs(s, steps, t)
    ensures |t.logStamps| <= |t.log| && InStampOrder(t.log, t.logStamps)
  {
    StartsKept(s);
    RunKeeps(s.caches, s, steps, t);
  }

  /**
   * Once the lock is free and everything sent was heard, every worker, the publisher with its
   * late echoes included, holds for each host that was ever sent the entry that the publisher
   * installed last; a host that was never sent is as it was.
   */
  lemma WorkersAgreeWithThePublisher(s: State, steps: seq<Step>, t: State, w: Worker, h: HostId)
    requires Starts(s) && Runs(s, steps, t)
    requires t.lock.Free? && w in s.caches
    requires forall v :: v in t.heard ==> t.heard[v] == |t.log|
    ensures w in t.caches
    ensures h in t.claimed <==> Mentions(t.log, h)
    ensures Lookup(t.caches[w], h) == if h in t.claimed then t.claimed[h] else Lookup(s.caches[w], h)
  {
    StartsKept(s);
    RunKeeps(s.caches, s, steps, t);
    AtRestWorkersAgree(s.caches, t, w, h);
  }

  lemma AtRestWorkersAgree(start: map<Worker, Hosts>, t: State, w: Worker, h: HostId)
    requires Inv(start, t) && t.lock.Free? && w in start
    requires forall v :: v in t.heard ==> t.heard[v] == |t.log|
    ensures w in t.caches
    ensures h in t.claimed <==> Mentions(t.log, h)
    ensures Lookup(t.caches[w], h) == if h in t.claimed then t.claimed[h] else Lookup(start[w], h)
  {
    assert HoldsAt(start, t, w, h) && ClaimedAt(t, h);
    assert t.log[..|t.log|] == t.log;
    if Mentions(t.log, h) {
      LastOfMentioned(t.log, h, Absent, Lookup(start[w], h));
    } else {
      LastEntriesHosts(t.log);
      assert [] + t.log == t.log;
      LastOfSuffix([], t.log, h, Lookup(start[w], h));
    }
  }

  // ------------------------------------------------------------------ what is still current

  lemma {:induction false} StillCurrentSnoc(stamps: Stamps, stamp: nat, items: seq<Item>, last: Item)
    ensures StillCurrent(stamps, stamp, items + [last])
         == StillCurrent(stamps, stamp, items) + if Claims(stamps, last.0, Stamped(stamp)) then [last] else []
    decreases |items|
  {
    var all := items + [last];
    if items == [] {
      assert all[1..] == [];
    } else {
      assert all[0] == items[0] && all[1..] == items[1..] + [last];
      StillCurrentSnoc(stamps, stamp, items[1..], last);
    }
  }

  /** What an operation still sends leaves its entries for the hosts it claims, and for no other. */
  lemma {:induction false} CurrentEntries(stamps: Stamps, stamp: nat, items: seq<Item>, h: HostId)
    ensures var current, all := LastEntries(StillCurrent(stamps, stamp, items)), LastEntries(items);
      && (h in current <==> h in all && Claims(stamps, h, Stamped(stamp)))
      && (h in current ==> current[h] == all[h])
    decreases |items|
  {
    if items != [] {
      var rest, last := items[..|items| - 1], items[|items| - 1];
      assert items == rest + [last];
      CurrentEntries(stamps, stamp, rest, h);
      StillCurrentSnoc(stamps, stamp, rest, last);
      LastEntriesSnoc(rest, last);
      if Claims(stamps, last.0, Stamped(stamp)) {
        LastEntriesSnoc(StillCurrent(stamps, stamp, rest), last);
      } else {
        assert StillCurrent(stamps, stamp, rest) + [] == StillCurrent(stamps, stamp, rest);
      }
    }
  }

  lemma LastEntriesSnoc(items: seq<Item>, last: Item)
    ensures LastEntries(items + [last]) == LastEntries(items)[last.0 := last.1]
  {
    assert (items + [last])[..|items|] == items;
  }

  // ------------------------------------------------------------------ the lists of the code

  function Items(prepared: seq<(HostId, Data)>, removed: seq<HostId>): seq<Item> {
    seq(|prepared|, i requires 0 <= i < |prepared| => (prepared[i].0, Present(prepared[i].1)))
    + seq(|removed|, i requires 0 <= i < |removed| => (removed[i], Absent))
  }

  /** Sending prepared hosts first and removals after them leaves what installing both lists leaves. */
  lemma {:induction false} ItemsInstallTheSame(prepared: seq<(HostId, Data)>, removed: seq<HostId>)
    ensures LastEntries(Items(prepared, removed)) == WithRemovals(Entries(prepared), removed)
    decreases |prepared| + |removed|
  {
    var all := Items(prepared, removed);
    if removed != [] {
      assert all[..|all| - 1] == Items(prepared, removed[..|removed| - 1]);
      ItemsInstallTheSame(prepared, removed[..|removed| - 1]);
    } else if prepared != [] {
      assert all[..|all| - 1] == Items(prepared[..|prepared| - 1], []);
      ItemsInstallTheSame(prepared[..|prepared| - 1], []);
    }
  }
}
