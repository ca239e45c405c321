/**
 * One run of webhook delivery (app/jobs/send_notifications.py, send_notifications): items are
 * taken from a queue, and each is acknowledged or handed back, whatever is raised or cancelled.
 */
module WebhookDelivery {

  datatype Note = Note(tries: nat, sendAt: real, payload: string)

  datatype Parsed = Malformed | Parsed(note: Note)

  /** One dequeued item. */
  datatype Ticket = Ticket(id: nat, content: Parsed)

  /** What the next dequeue does. */
  datatype Arrival = Item(content: Parsed) | Nothing | DequeueFails | DequeueCancelled

  /** How an await ends. */
  datatype Outcome = Done | Raised | Cancelled

  datatype Event =
    | Delivered(batch: seq<Ticket>)
    | NotDelivered(batch: seq<Ticket>, at: real)
    | Replaced(ticket: Ticket, replacement: Note)
    | Acked(ticket: Ticket)
    | Released(ticket: Ticket)

  datatype Settings = Settings(recurrent: nat, timeout: real)

  const BATCH_SIZE: nat := 50

  function Without(tickets: seq<Ticket>, gone: seq<Ticket>): (rest: seq<Ticket>)
    ensures forall t :: t in rest <==> t in tickets && t !in gone
  {
    if tickets == [] then
      []
    else
      var rest := Without(tickets[1..], gone);
      assert tickets == [tickets[0]] + tickets[1..];
      if tickets[0] in gone then rest else [tickets[0]] + rest
  }

  function SetOf(tickets: seq<Ticket>): set<Ticket> {
    set t | t in tickets
  }

  ghost predicate AreDistinct(tickets: seq<Ticket>) {
    forall i, j :: 0 <= i < j < |tickets| ==> tickets[i] != tickets[j]
  }

  function Tickets(pairs: seq<(Ticket, Note)>): seq<Ticket> {
    seq(|pairs|, i requires 0 <= i < |pairs| => pairs[i].0)
  }

  lemma DistinctWithout(a: seq<Ticket>, gone: seq<Ticket>, b: seq<Ticket>)
    requires AreDistinct(a + gone + b)
    ensures AreDistinct(a + b) && AreDistinct(gone)
    ensures forall t :: t in a + b ==> t !in gone && t in a + gone + b
  {
    var all, rest, n := a + gone + b, a + b, |gone|;
    assert forall i :: 0 <= i < |rest| ==> rest[i] == all[if i < |a| then i else i + n];
    assert forall i :: 0 <= i < n ==> gone[i] == all[|a| + i];
    forall i, j | 0 <= i < |rest| && 0 <= j < n
      ensures rest[i] != gone[j]
    {
      assert all[if i < |a| then i else i + n] != all[|a| + j];
    }
  }

  lemma DistinctWith(a: seq<Ticket>, t: Ticket, b: seq<Ticket>)
    requires AreDistinct(a + b) && t !in a + b
    ensures AreDistinct(a + [t] + b)
  {
    var all, rest := a + [t] + b, a + b;
    assert forall i :: 0 <= i < |a| ==> all[i] == rest[i];
    assert forall i :: |a| < i < |all| ==> all[i] == rest[i - 1];
    assert forall i :: 0 <= i < |rest| ==> rest[i] in rest;
  }

  // ------------------------------------------------------------------ what each event needs

  /** The item has tries left and is due, or has tries left and is not due yet. */
  predicate IsFor(settings: Settings, now: real, t: Ticket, due: bool) {
    t.content.Parsed? && t.content.note.tries < settings.recurrent && due == (t.content.note.sendAt <= now)
  }

  ghost predicate IsSentIn(e: Event, t: Ticket) {
    (e.Delivered? || e.NotDelivered?) && t in e.batch
  }

  ghost predicate WasSent(log: seq<Event>, t: Ticket) {
    exists k :: 0 <= k < |log| && IsSentIn(log[k], t)
  }

  ghost predicate WasDelivered(log: seq<Event>, t: Ticket) {
    exists k :: 0 <= k < |log| && log[k].Delivered? && t in log[k].batch
  }

  ghost predicate WasTried(log: seq<Event>, t: Ticket) {
    exists k :: 0 <= k < |log| && log[k].NotDelivered? && t in log[k].batch
  }

  ghost predicate WasReplaced(log: seq<Event>, t: Ticket) {
    exists k :: 0 <= k < |log| && log[k].Replaced? && log[k].ticket == t
  }

  /** It can never be sent, it has had its tries, it arrived, or another item took its place. */
  ghost predicate MayAck(settings: Settings, log: seq<Event>, t: Ticket) {
    || t.content.Malformed?
    || t.content.note.tries >= settings.recurrent
    || WasDelivered(log, t)
    || (WasTried(log, t) && t.content.note.tries + 1 >= settings.recurrent)
    || WasReplaced(log, t)
  }

  /** The note asks for one more try of an item of a batch that failed, a timeout after it did. */
  ghost predicate IsRetryOf(settings: Settings, e: Event, t: Ticket, note: Note)
    requires t.content.Parsed?
  {
    && e.NotDelivered? && t in e.batch
    && note == Note(t.content.note.tries + 1, e.at + settings.timeout, t.content.note.payload)
  }

  /** The note may stand for the item: its own as it was not due, or one more try after a failed batch. */
  ghost predicate MayReplace(settings: Settings, now: real, log: seq<Event>, t: Ticket, note: Note) {
    && t.content.Parsed? && note.tries < settings.recurrent
    && ((note == t.content.note && note.sendAt > now) || exists k :: 0 <= k < |log| && IsRetryOf(settings, log[k], t, note))
  }

  lemma FirstOfBatch(batch: seq<(Ticket, Note)>, i: nat, before: seq<Ticket>, after: seq<Ticket>)
    requires i < |batch|
    ensures batch[i].0 in Tickets(batch)
    ensures before + (Tickets(batch[i..]) + after) == before + [batch[i].0] + (Tickets(batch[i + 1..]) + after)
    ensures Tickets(batch[..i + 1]) == Tickets(batch[..i]) + [batch[i].0]
  {
    assert batch[i].0 == Tickets(batch)[i];
  }

  lemma CutInTwo(all: seq<(Ticket, Note)>, start: nat, end: nat)
    requires start <= end <= |all|
    ensures Tickets(all[start..]) == Tickets(all[start..end]) + Tickets(all[end..])
    ensures Tickets(all[..end]) == Tickets(all[..start]) + Tickets(all[start..end])
  {
  }

  ghost predicate AreInOrder(tickets: seq<Ticket>) {
    forall i, j :: 0 <= i < j < |tickets| ==> tickets[i].id < tickets[j].id
  }

  /** Everything sent so far is older than the item. */
  ghost predicate SentAreOlder(log: seq<Event>, t: Ticket) {
    forall u :: WasSent(log, u) ==> u.id < t.id
  }

  /** At most fifty items that are due, each newer than all sent before, so that none is sent twice. */
  ghost predicate MaySend(settings: Settings, now: real, log: seq<Event>, batch: seq<Ticket>) {
    && 1 <= |batch| <= BATCH_SIZE && AreInOrder(batch)
    && forall i :: 0 <= i < |batch| ==> IsFor(settings, now, batch[i], true) && SentAreOlder(log, batch[i])
  }

  ghost predicate MayHappen(settings: Settings, now: real, log: seq<Event>, e: Event) {
    match e
    case Delivered(batch) => MaySend(settings, now, log, batch)
    case NotDelivered(batch, _) => MaySend(settings, now, log, batch)
    case Replaced(t, note) => MayReplace(settings, now, log, t, note)
    case Acked(t) => MayAck(settings, log, t)
    case Released(_) => true
  }

  /** Each event comes after what allows it. */
  ghost predicate IsJustified(settings: Settings, now: real, log: seq<Event>) {
    forall p :: 0 <= p < |log| ==> MayHappen(settings, now, log[..p], log[p])
  }

  lemma AllowedStays(settings: Settings, now: real, log: seq<Event>, more: seq<Event>, t: Ticket)
    ensures MayAck(settings, log, t) ==> MayAck(settings, log + more, t)
    ensures forall note :: MayReplace(settings, now, log, t, note) ==> MayReplace(settings, now, log + more, t, note)
    ensures WasDelivered(log, t) ==> WasDelivered(log + more, t)
    ensures WasTried(log, t) ==> WasTried(log + more, t)
  {
    var all := log + more;
    assert forall k :: 0 <= k < |log| ==> all[k] == log[k];
  }

  lemma OneMoreEvent(settings: Settings, now: real, log: seq<Event>, e: Event)
    requires IsJustified(settings, now, log) && MayHappen(settings, now, log, e)
    ensures IsJustified(settings, now, log + [e])
  {
    var all := log + [e];
    forall p | 0 <= p < |all|
      ensures MayHappen(settings, now, all[..p], all[p])
    {
      assert all[..p] == log[..p];
      assert p == |log| ==> log[..p] == log;
    }
  }

  lemma SentAfter(log: seq<Event>, e: Event, u: Ticket)
    ensures WasSent(log + [e], u) <==> WasSent(log, u) || IsSentIn(e, u)
  {
    var all := log + [e];
    assert all[|log|] == e && forall k :: 0 <= k < |log| ==> all[k] == log[k];
  }

  /** In a justified log no item is sent twice, and items are sent in order. */
  lemma SentOnce(settings: Settings, now: real, log: seq<Event>, k: nat, l: nat, t: Ticket, u: Ticket)
    requires IsJustified(settings, now, log) && k < l < |log| && IsSentIn(log[k], t) && IsSentIn(log[l], u)
    ensures t.id < u.id
  {
    assert log[..l][k] == log[k];
    assert WasSent(log[..l], t);
    assert MayHappen(settings, now, log[..l], log[l]);
  }

  /** Nothing but acknowledgements was added. */
  ghost predicate AddsOnlyAcks(before: seq<Event>, after: seq<Event>) {
    before <= after && forall k :: |before| <= k < |after| ==> after[k].Acked?
  }

  lemma AcksSendNothing(before: seq<Event>, after: seq<Event>)
    requires AddsOnlyAcks(before, after)
    ensures forall u :: WasSent(after, u) ==> WasSent(before, u)
  {
    forall u | WasSent(after, u)
      ensures WasSent(before, u)
    {
      var k :| 0 <= k < |after| && IsSentIn(after[k], u);
      assert after[k] == before[k];
    }
  }

  // ------------------------------------------------------------------ the two lists

  /** The list holds exactly the items for it among those seen, in order and with their notes. */
  ghost predicate IsListOf(settings: Settings, now: real, list: seq<(Ticket, Note)>, seen: set<Ticket>, due: bool) {
    && AreInOrder(Tickets(list))
    && (forall t :: t in Tickets(list) <==> t in seen && IsFor(settings, now, t, due))
    && forall i :: 0 <= i < |list| ==> list[i].0.content == Parsed(list[i].1)
  }

  lemma OneMoreSeen(settings: Settings, now: real, list: seq<(Ticket, Note)>, seen: set<Ticket>, due: bool, t: Ticket)
    requires IsListOf(settings, now, list, seen, due) && forall u :: u in seen ==> u.id < t.id
    ensures IsFor(settings, now, t, due) ==> IsListOf(settings, now, list + [(t, t.content.note)], seen + {t}, due)
    ensures !IsFor(settings, now, t, due) ==> IsListOf(settings, now, list, seen + {t}, due)
  {
    if IsFor(settings, now, t, due) {
      var more := list + [(t, t.content.note)];
      assert Tickets(more) == Tickets(list) + [t];
      assert forall i :: 0 <= i < |list| ==> Tickets(list)[i] in Tickets(list) && Tickets(list)[i].id < t.id;
    }
  }

  /** It arrived and is acknowledged; or it did not, and waits for another try or has had its tries. */
  ghost predicate IsDealtWith(settings: Settings, log: seq<Event>, acked: set<Ticket>, waiting: seq<(Ticket, Note)>, t: Ticket) {
    || (WasDelivered(log, t) && t in acked)
    || (&& WasTried(log, t) && t.content.Parsed?
        && if t.content.note.tries + 1 < settings.recurrent then t in Tickets(waiting) else t in acked)
  }

  lemma StillDealtWith(
    settings: Settings, log: seq<Event>, acked: set<Ticket>, waiting: seq<(Ticket, Note)>,
    log': seq<Event>, acked': set<Ticket>, waiting': seq<(Ticket, Note)>, t: Ticket)
    requires IsDealtWith(settings, log, acked, waiting, t) && log <= log' && acked <= acked' && waiting <= waiting'
    ensures IsDealtWith(settings, log', acked', waiting', t)
  {
    assert log' == log + log'[|log|..];
    AllowedStays(settings, 0.0, log, log'[|log|..], t);
    assert forall i :: 0 <= i < |waiting| ==> Tickets(waiting')[i] == Tickets(waiting)[i];
  }

  ghost predicate AreDealtWith(settings: Settings, log: seq<Event>, acked: set<Ticket>, waiting: seq<(Ticket, Note)>, tickets: seq<Ticket>) {
    forall t :: t in tickets ==> IsDealtWith(settings, log, acked, waiting, t)
  }

  lemma MoreDealtWith(
    settings: Settings, log: seq<Event>, acked: set<Ticket>, waiting: seq<(Ticket, Note)>,
    log': seq<Event>, acked': set<Ticket>, waiting': seq<(Ticket, Note)>, a: seq<Ticket>, b: seq<Ticket>)
    requires AreDealtWith(settings, log, acked, waiting, a) && log <= log' && acked <= acked' && waiting <= waiting'
    requires AreDealtWith(settings, log', acked', waiting', b)
    ensures AreDealtWith(settings, log', acked', waiting', a + b)
  {
    forall t | t in a + b
      ensures IsDealtWith(settings, log', acked', waiting', t)
    {
      if t in a {
        StillDealtWith(settings, log, acked, waiting, log', acked', waiting', t);
      }
    }
  }

  /** Only these items were sent meanwhile. */
  ghost predicate SendsOnly(before: seq<Event>, after: seq<Event>, batch: seq<Ticket>) {
    forall u :: WasSent(after, u) ==> WasSent(before, u) || u in batch
  }

  lemma BatchIsSent(before: seq<Event>, e: Event, after: seq<Event>)
    requires (e.Delivered? || e.NotDelivered?) && AddsOnlyAcks(before + [e], after)
    ensures before <= after && after[|before|] == e && SendsOnly(before, after, e.batch)
  {
    var sent := before + [e];
    AcksSendNothing(sent, after);
    assert after[|before|] == sent[|before|];
    forall u | WasSent(after, u)
      ensures WasSent(before, u) || u in e.batch
    {
      SentAfter(before, e, u);
    }
  }

  /** A replacement is the item's own note when it was not due, and a retry after its failed batch when it was. */
  lemma ReplacementIsRight(settings: Settings, now: real, log: seq<Event>, p: nat)
    requires IsJustified(settings, now, log) && p < |log| && log[p].Replaced?
    ensures var t, note := log[p].ticket, log[p].replacement;
      if IsFor(settings, now, t, true) then
        exists k :: 0 <= k < p && IsRetryOf(settings, log[k], t, note)
      else
        IsFor(settings, now, t, false) && note == t.content.note
  {
    var t, note := log[p].ticket, log[p].replacement;
    assert MayHappen(settings, now, log[..p], log[p]);
    if k :| 0 <= k < p && IsRetryOf(settings, log[..p][k], t, note) {
      assert log[..p][k] == log[k];
      assert MayHappen(settings, now, log[..k], log[k]);
      assert IsFor(settings, now, t, true);
    }
  }

  /**
   * How a run that was not interrupted leaves an item, given how its enqueue went: what has no
   * tries left is acknowledged; what is not due is replaced; what is due was sent, and is
   * acknowledged if it arrived or has had its tries, and otherwise replaced. What could not be
   * replaced is not acknowledged.
   */
  ghost predicate EndsRight(settings: Settings, now: real, log: seq<Event>, acked: set<Ticket>, t: Ticket, enqueued: Outcome) {
    if IsFor(settings, now, t, false) then
      IsReplacedOrKept(log, acked, t, enqueued)
    else if IsFor(settings, now, t, true) then
      || (WasDelivered(log, t) && t in acked)
      || (&& WasTried(log, t)
          && if t.content.note.tries + 1 < settings.recurrent then IsReplacedOrKept(log, acked, t, enqueued) else t in acked)
    else
      t in acked
  }

  ghost predicate IsReplacedOrKept(log: seq<Event>, acked: set<Ticket>, t: Ticket, enqueued: Outcome) {
    if enqueued.Done? then WasReplaced(log, t) && t in acked else t !in acked
  }

  /** The pair's replacement is logged and its item acknowledged, or its enqueue failed and it is unsettled. */
  ghost predicate IsRequeued(log: seq<Event>, acked: set<Ticket>, unsettled: seq<Ticket>, pair: (Ticket, Note), enqueued: Outcome) {
    match enqueued
    case Done => Replaced(pair.0, pair.1) in log && pair.0 in acked
    case Raised => pair.0 in unsettled
    case Cancelled => false
  }

  /** How far the requeue loop has come. */
  ghost predicate AreRequeued(
    log: seq<Event>, acked: set<Ticket>, unsettled: seq<Ticket>, pairs: seq<(Ticket, Note)>, enqueue: Ticket -> Outcome)
  {
    forall k :: 0 <= k < |pairs| ==> IsRequeued(log, acked, unsettled, pairs[k], enqueue(pairs[k].0))
  }

  lemma OneMoreRequeued(
    log: seq<Event>, acked: set<Ticket>, unsettled: seq<Ticket>, log': seq<Event>, acked': set<Ticket>, unsettled': seq<Ticket>,
    pairs: seq<(Ticket, Note)>, i: nat, enqueue: Ticket -> Outcome)
    requires i < |pairs| && AreDistinct(Tickets(pairs)) && AreRequeued(log, acked, unsettled, pairs[..i], enqueue)
    requires log <= log' && acked <= acked' && forall u :: u in unsettled && u != pairs[i].0 ==> u in unsettled'
    requires IsRequeued(log', acked', unsettled', pairs[i], enqueue(pairs[i].0))
    ensures AreRequeued(log', acked', unsettled', pairs[..i + 1], enqueue)
  {
    forall k | 0 <= k < i
      ensures IsRequeued(log', acked', unsettled', pairs[k], enqueue(pairs[k].0))
    {
      assert pairs[..i][k] == pairs[k];
      assert Tickets(pairs)[k] != Tickets(pairs)[i];
    }
  }

  // ------------------------------------------------------------------ one run

  /** The lists of one run and what it did to the queue. */
  class Run {
    const settings: Settings
    const now: real
    var unsettled: seq<Ticket>
    var failedToRequeue: seq<(Ticket, Note)>
    var ready: seq<(Ticket, Note)>
    var taken: nat
    ghost var dequeued: set<Ticket>
    ghost var acked: set<Ticket>
    ghost var released: set<Ticket>
    /** Taken off the list by a _settle that did not complete, and not acknowledged. */
    ghost var dropped: set<Ticket>
    ghost var settledAll: bool
    ghost var log: seq<Event>

    /** Every dequeued item is in exactly one place. */
    ghost predicate Valid()
      reads this
    {
      && dequeued == SetOf(unsettled) + acked + released + dropped
      && SetOf(unsettled) !! acked && SetOf(unsettled) !! released && SetOf(unsettled) !! dropped
      && acked !! released && acked !! dropped && released !! dropped
      && (forall t :: t in dequeued ==> t.id < taken)
      && IsJustified(settings, now, log)
      && (settledAll ==> dropped == {})
    }

    /** Nothing has happened yet. */
    ghost predicate IsUnused()
      reads this
    {
      && unsettled == [] && failedToRequeue == [] && ready == [] && taken == 0
      && dequeued == acked == released == dropped == {} && log == [] && settledAll
    }

    /** The items taken are those that the queue gave, up to where it gave none. */
    ghost predicate ArrivedFrom(arrivals: seq<Arrival>)
      reads this
    {
      && taken <= |arrivals| && (forall i :: 0 <= i < taken ==> arrivals[i].Item?)
      && (forall t :: t in dequeued <==> t.id < taken && t.content == arrivals[t.id].content)
    }

    /** Due items are ready to be sent, and those not due yet wait. */
    ghost predicate AreSorted()
      reads this
    {
      IsListOf(settings, now, ready, dequeued, true) && IsListOf(settings, now, failedToRequeue, dequeued, false)
    }

    ghost predicate AreWaiting(pairs: seq<(Ticket, Note)>)
      reads this
    {
      forall i :: 0 <= i < |pairs| ==> MayReplace(settings, now, log, pairs[i].0, pairs[i].1)
    }

    /** The tickets are all still to be settled. */
    ghost predicate AreOpen(tickets: seq<Ticket>)
      reads this
    {
      AreDistinct(tickets) && forall t :: t in tickets ==> t in unsettled
    }

    constructor (settings: Settings, now: real)
      ensures Valid() && IsUnused() && this.settings == settings && this.now == now
    {
      this.settings, this.now := settings, now;
      unsettled, failedToRequeue, ready, taken := [], [], [], 0;
      dequeued, acked, released, dropped, log, settledAll := {}, {}, {}, {}, [], true;
    }

    /** One await of queue.ack; an await that does not end may have reached the queue. */
    method Ack(t: Ticket) returns (outcome: Outcome)
      requires Valid() && t in dropped && !settledAll && MayAck(settings, log, t)
      modifies this`acked, this`dropped, this`log
      ensures Valid() && AddsOnlyAcks(old(log), log)
      ensures outcome.Done? ==> acked == old(acked) + {t} && dropped == old(dropped) - {t}
      ensures acked + dropped == old(acked) + old(dropped) && old(acked) <= acked
    {
      var reached: bool := *;
      if reached {
        OneMoreEvent(settings, now, log, Acked(t));
        acked, dropped, log := acked + {t}, dropped - {t}, log + [Acked(t)];
        outcome := *;
      } else {
        outcome := *;
        if outcome.Done? {
          outcome := Raised;
        }
      }
    }

    /** The acknowledging loop of _settle. */
    method AckAll(items: seq<Ticket>) returns (outcome: Outcome)
      requires Valid() && !settledAll && AreDistinct(items) && SetOf(items) <= dropped
      requires forall t :: t in items ==> MayAck(settings, log, t)
      modifies this`acked, this`dropped, this`log
      ensures Valid() && AddsOnlyAcks(old(log), log)
      ensures outcome.Done? ==> acked == old(acked) + SetOf(items) && dropped == old(dropped) - SetOf(items)
      ensures old(acked) <= acked
    {
      for i := 0 to |items|
        invariant Valid() && AddsOnlyAcks(old(log), log)
        invariant forall k :: i <= k < |items| ==> items[k] in dropped
        invariant acked == old(acked) + SetOf(items[..i])
        invariant dropped == old(dropped) - SetOf(items[..i])
      {
        ghost var more := log[|old(log)|..];
        assert log == old(log) + more;
        AllowedStays(settings, now, old(log), more, items[i]);
        outcome := Ack(items[i]);
        if !outcome.Done? {
          return;
        }
        assert SetOf(items[..i + 1]) == SetOf(items[..i]) + {items[i]} by {
          assert items[..i + 1] == items[..i] + [items[i]];
        }
      }
      assert items[..|items|] == items;
      outcome := Done;
    }

    /**
     * _settle: the items leave the list first and are then acknowledged one by one. When it
     * does not complete, the rest of them are neither on the list nor acknowledged.
     */
    method Settle(items: seq<Ticket>) returns (outcome: Outcome)
      requires Valid() && AreOpen(items) && forall t :: t in items ==> MayAck(settings, log, t)
      modifies this`unsettled, this`acked, this`dropped, this`log, this`settledAll
      ensures Valid() && AddsOnlyAcks(old(log), log)
      ensures unsettled == Without(old(unsettled), items)
      ensures settledAll == (old(settledAll) && outcome.Done?)
      ensures outcome.Done? ==> acked == old(acked) + SetOf(items) && dropped == old(dropped)
      ensures old(acked) <= acked
    {
      ghost var completed := settledAll;
      unsettled := Without(unsettled, items);
      dropped, settledAll := dropped + SetOf(items), false;
      assert Valid();
      outcome := AckAll(items);
      assert old(dropped) + SetOf(items) - SetOf(items) == old(dropped);
      settledAll := completed && outcome.Done?;
    }

    /** The dequeue loop: items that can go nowhere are settled, the others sorted into the two lists. */
    method TakeItems(arrivals: seq<Arrival>) returns (outcome: Outcome)
      requires Valid() && IsUnused()
      modifies this`unsettled, this`failedToRequeue, this`ready, this`taken, this`dequeued, this`acked, this`dropped, this`log, this`settledAll
      ensures Valid() && AddsOnlyAcks([], log) && ArrivedFrom(arrivals) && AreSorted()
      ensures AreOpen(Tickets(failedToRequeue))
      ensures outcome.Done? ==>
                && AreOpen(Tickets(failedToRequeue) + Tickets(ready)) && settledAll
                && (taken == |arrivals| || arrivals[taken].Nothing? || arrivals[taken].DequeueFails?)
                && forall t :: t in dequeued ==>
                     (t in acked <==> t.content.Malformed? || t.content.note.tries >= settings.recurrent)
    {
      for i := 0 to |arrivals|
        invariant Valid() && taken == i && AddsOnlyAcks([], log) && ArrivedFrom(arrivals) && AreSorted() && settledAll
        invariant AreOpen(Tickets(failedToRequeue)) && AreOpen(Tickets(failedToRequeue) + Tickets(ready))
        invariant forall t :: t in dequeued ==>
                    (t in acked <==> t.content.Malformed? || t.content.note.tries >= settings.recurrent)
      {
        match arrivals[i]
        case DequeueCancelled =>
          return Cancelled;
        case DequeueFails =>
          return Done;
        case Nothing =>
          return Done;
        case Item(content) =>
          outcome := TakeOne(content);
          if !outcome.Done? {
            return;
          }
      }
      outcome := Done;
    }

    method TakeOne(content: Parsed) returns (outcome: Outcome)
      requires Valid() && AreOpen(Tickets(failedToRequeue)) && AreOpen(Tickets(failedToRequeue) + Tickets(ready)) && AreSorted()
      modifies this`unsettled, this`failedToRequeue, this`ready, this`taken, this`dequeued, this`acked, this`dropped, this`log, this`settledAll
      ensures Valid() && AddsOnlyAcks(old(log), log) && AreSorted()
      ensures AreOpen(Tickets(failedToRequeue)) && AreOpen(Tickets(failedToRequeue) + Tickets(ready))
      ensures taken == old(taken) + 1 && dequeued == old(dequeued) + {Ticket(old(taken), content)}
      ensures settledAll == (old(settledAll) && outcome.Done?)
      ensures outcome.Done? ==>
                acked == if content.Malformed? || content.note.tries >= settings.recurrent
                         then old(acked) + {Ticket(old(taken), content)} else old(acked)
    {
      ghost var open := Tickets(failedToRequeue) + Tickets(ready);
      ghost var seen := dequeued;
      var t := Receive(content, open);
      OpenPart(Tickets(failedToRequeue), Tickets(ready));
      OneMoreSeen(settings, now, ready, seen, true, t);
      OneMoreSeen(settings, now, failedToRequeue, seen, false, t);
      if content.Malformed? || content.note.tries >= settings.recurrent {
        outcome := Settle([t]);
        return;
      }
      outcome := Done;
      PutDown(t, content.note, content.note.sendAt > now);
    }

    /** A new item is unlike all before it, and unsettled. */
    method Receive(content: Parsed, ghost open: seq<Ticket>) returns (t: Ticket)
      requires Valid() && AreOpen(open)
      modifies this`unsettled, this`taken, this`dequeued
      ensures Valid() && AreOpen(open) && t !in open && t in unsettled && t == Ticket(old(taken), content)
      ensures taken == old(taken) + 1 && dequeued == old(dequeued) + {t}
      ensures AreOpen([t])
    {
      t := Ticket(taken, content);
      assert t !in dequeued && t !in open;
      taken := taken + 1;
      unsettled := unsettled + [t];
      dequeued := dequeued + {t};
    }

    /** The item goes to the end of one of the two lists. */
    method PutDown(t: Ticket, note: Note, later: bool)
      requires Valid() && t in unsettled && t !in Tickets(failedToRequeue) + Tickets(ready)
      requires AreOpen(Tickets(failedToRequeue) + Tickets(ready))
      modifies this`failedToRequeue, this`ready
      ensures Valid()
      ensures failedToRequeue == if later then old(failedToRequeue) + [(t, note)] else old(failedToRequeue)
      ensures ready == if later then old(ready) else old(ready) + [(t, note)]
      ensures AreOpen(Tickets(failedToRequeue)) && AreOpen(Tickets(failedToRequeue) + Tickets(ready))
    {
      ghost var failed, waiting := Tickets(failedToRequeue), Tickets(ready);
      if later {
        DistinctWith(failed, t, waiting);
        failedToRequeue := failedToRequeue + [(t, note)];
        assert Tickets(failedToRequeue) == failed + [t];
      } else {
        DistinctWith(failed + waiting, t, []);
        ready := ready + [(t, note)];
        assert Tickets(failedToRequeue) + Tickets(ready) == failed + waiting + [t] + [];
      }
      OpenPart(Tickets(failedToRequeue), Tickets(ready));
    }

    ghost method Happens(e: Event)
      requires Valid() && MayHappen(settings, now, log, e)
      modifies this`log
      ensures Valid() && log == old(log) + [e]
    {
      OneMoreEvent(settings, now, log, e);
      log := log + [e];
    }

    /** One item of a batch that no webhook took: put down for another try, or settled. */
    method OneAfterFailure(t: Ticket, note: Note, retryAt: real, ghost others: seq<Ticket>, ghost failure: nat)
      returns (outcome: Outcome)
      requires Valid() && AreOpen(Tickets(failedToRequeue) + [t] + others) && AreWaiting(failedToRequeue)
      requires t.content == Parsed(note)
      requires failure < |log| && log[failure].NotDelivered? && t in log[failure].batch && log[failure].at == retryAt
      modifies this`unsettled, this`failedToRequeue, this`acked, this`dropped, this`log, this`settledAll
      ensures Valid() && AddsOnlyAcks(old(log), log) && old(failedToRequeue) <= failedToRequeue && old(acked) <= acked
      ensures AreOpen(Tickets(failedToRequeue) + others) && AreWaiting(failedToRequeue)
      ensures outcome.Done? ==> IsDealtWith(settings, log, acked, failedToRequeue, t) && settledAll == old(settledAll)
    {
      var again := note.(tries := note.tries + 1);
      ghost var failed := Tickets(failedToRequeue);
      if again.tries < settings.recurrent {
        again := again.(sendAt := retryAt + settings.timeout);
        assert IsRetryOf(settings, log[failure], t, again);
        failedToRequeue := failedToRequeue + [(t, again)];
        assert Tickets(failedToRequeue) == failed + [t];
        outcome := Done;
      } else {
        DistinctWithout(failed, [t], others);
        assert t in failed + [t] + others;
        outcome := Settle([t]);
        StillWaiting(old(log), failedToRequeue);
        assert log[failure] == old(log)[failure];
      }
    }

    /** Items that are not due wait with their own notes. */
    lemma EarlyAreWaiting()
      requires IsListOf(settings, now, failedToRequeue, dequeued, false)
      ensures AreWaiting(failedToRequeue)
    {
      assert forall i :: 0 <= i < |failedToRequeue| ==> failedToRequeue[i].0 == Tickets(failedToRequeue)[i];
      assert forall i :: 0 <= i < |failedToRequeue| ==> Tickets(failedToRequeue)[i] in Tickets(failedToRequeue);
    }

    /** What may be replaced may be replaced later. */
    lemma StillWaiting(before: seq<Event>, pairs: seq<(Ticket, Note)>)
      requires before <= log && forall i :: 0 <= i < |pairs| ==> MayReplace(settings, now, before, pairs[i].0, pairs[i].1)
      ensures AreWaiting(pairs)
    {
      assert log == before + log[|before|..];
      forall i | 0 <= i < |pairs|
        ensures MayReplace(settings, now, log, pairs[i].0, pairs[i].1)
      {
        AllowedStays(settings, now, before, log[|before|..], pairs[i].0);
      }
    }

    method AfterFailure(batch: seq<(Ticket, Note)>, ghost rest: seq<Ticket>) returns (outcome: Outcome)
      requires Valid() && AreOpen(Tickets(failedToRequeue) + (Tickets(batch) + rest)) && AreWaiting(failedToRequeue)
      requires forall i :: 0 <= i < |batch| ==> batch[i].0.content == Parsed(batch[i].1)
      requires MaySend(settings, now, log, Tickets(batch))
      modifies this`unsettled, this`failedToRequeue, this`acked, this`dropped, this`log, this`settledAll
      ensures Valid() && AreOpen(Tickets(failedToRequeue)) && AreWaiting(failedToRequeue)
      ensures old(log) <= log && old(acked) <= acked && old(failedToRequeue) <= failedToRequeue
      ensures SendsOnly(old(log), log, Tickets(batch))
      ensures outcome.Done? ==>
                && AreOpen(Tickets(failedToRequeue) + rest) && settledAll == old(settledAll)
                && AreDealtWith(settings, log, acked, failedToRequeue, Tickets(batch))
    {
      var retryAt: real := *;
      ghost var event := NotDelivered(Tickets(batch), retryAt);
      Happens(event);
      StillWaiting(old(log), failedToRequeue);
      outcome := RetryAll(batch, retryAt, rest, |old(log)|);
      BatchIsSent(old(log), event, log);
    }

    /** The loop over the items of a batch that failed. */
    method RetryAll(batch: seq<(Ticket, Note)>, retryAt: real, ghost rest: seq<Ticket>, ghost failure: nat) returns (outcome: Outcome)
      requires Valid() && AreOpen(Tickets(failedToRequeue) + (Tickets(batch) + rest)) && AreWaiting(failedToRequeue)
      requires forall i :: 0 <= i < |batch| ==> batch[i].0.content == Parsed(batch[i].1)
      requires failure < |log| && log[failure] == NotDelivered(Tickets(batch), retryAt)
      modifies this`unsettled, this`failedToRequeue, this`acked, this`dropped, this`log, this`settledAll
      ensures Valid() && AreOpen(Tickets(failedToRequeue)) && AreWaiting(failedToRequeue)
      ensures AddsOnlyAcks(old(log), log) && old(acked) <= acked && old(failedToRequeue) <= failedToRequeue
      ensures outcome.Done? ==>
                && AreOpen(Tickets(failedToRequeue) + rest) && settledAll == old(settledAll)
                && AreDealtWith(settings, log, acked, failedToRequeue, Tickets(batch))
    {
      assert Tickets(batch[..0]) == [] && batch[0..] == batch;
      for i := 0 to |batch|
        invariant Valid() && AddsOnlyAcks(old(log), log) && old(acked) <= acked && old(failedToRequeue) <= failedToRequeue
        invariant AreOpen(Tickets(failedToRequeue) + (Tickets(batch[i..]) + rest)) && AreWaiting(failedToRequeue)
        invariant settledAll == old(settledAll)
        invariant AreDealtWith(settings, log, acked, failedToRequeue, Tickets(batch[..i]))
      {
        var (t, note) := batch[i];
        ghost var others := Tickets(batch[i + 1..]) + rest;
        FirstOfBatch(batch, i, Tickets(failedToRequeue), rest);
        ghost var logged, done, waiting := log, acked, failedToRequeue;
        outcome := OneAfterFailure(t, note, retryAt, others, failure);
        if !outcome.Done? {
          OpenPart(Tickets(failedToRequeue), others);
          return;
        }
        MoreDealtWith(settings, logged, done, waiting, log, acked, failedToRequeue, Tickets(batch[..i]), [t]);
      }
      assert Tickets(batch[|batch|..]) + rest == rest && batch[..|batch|] == batch;
      OpenPart(Tickets(failedToRequeue), rest);
      outcome := Done;
    }

    lemma OpenPart(a: seq<Ticket>, b: seq<Ticket>)
      requires AreOpen(a + b)
      ensures AreOpen(a) && AreOpen(b)
    {
      assert a == (a + b)[..|a|] && b == (a + b)[|a|..];
      DistinctWithout([], a, b);
      DistinctWithout(a, b, []);
      assert [] + a + b == a + b && a + b + [] == a + b;
    }

    /** One batch: settled as a whole if some webhook took it. */
    method SendBatch(batch: seq<(Ticket, Note)>, ghost rest: seq<Ticket>) returns (outcome: Outcome)
      requires Valid() && AreOpen(Tickets(failedToRequeue) + (Tickets(batch) + rest)) && AreWaiting(failedToRequeue)
      requires forall i :: 0 <= i < |batch| ==> batch[i].0.content == Parsed(batch[i].1)
      requires MaySend(settings, now, log, Tickets(batch))
      modifies this`unsettled, this`failedToRequeue, this`acked, this`dropped, this`log, this`settledAll
      ensures Valid() && AreOpen(Tickets(failedToRequeue)) && AreWaiting(failedToRequeue)
      ensures old(log) <= log && old(acked) <= acked && old(failedToRequeue) <= failedToRequeue
      ensures SendsOnly(old(log), log, Tickets(batch))
      ensures outcome.Done? ==>
                && AreOpen(Tickets(failedToRequeue) + rest) && settledAll == old(settledAll)
                && AreDealtWith(settings, log, acked, failedToRequeue, Tickets(batch))
    {
      OpenPart(Tickets(failedToRequeue), Tickets(batch) + rest);
      outcome := *;
      if !outcome.Done? {
        return;
      }
      var success: bool := *;
      if success {
        outcome := AfterDelivery(batch, rest);
      } else {
        outcome := AfterFailure(batch, rest);
      }
    }

    method AfterDelivery(batch: seq<(Ticket, Note)>, ghost rest: seq<Ticket>) returns (outcome: Outcome)
      requires Valid() && AreOpen(Tickets(failedToRequeue) + (Tickets(batch) + rest)) && AreWaiting(failedToRequeue)
      requires MaySend(settings, now, log, Tickets(batch))
      modifies this`unsettled, this`acked, this`dropped, this`log, this`settledAll
      ensures Valid() && AreOpen(Tickets(failedToRequeue) + rest) && AreOpen(Tickets(failedToRequeue)) && AreWaiting(failedToRequeue)
      ensures old(log) <= log && old(acked) <= acked
      ensures SendsOnly(old(log), log, Tickets(batch))
      ensures outcome.Done? ==>
                settledAll == old(settledAll) && AreDealtWith(settings, log, acked, failedToRequeue, Tickets(batch))
    {
      ghost var failed := Tickets(failedToRequeue);
      Happens(Delivered(Tickets(batch)));
      assert log[|log| - 1] == Delivered(Tickets(batch));
      assert failed + (Tickets(batch) + rest) == failed + Tickets(batch) + rest;
      DistinctWithout(failed, Tickets(batch), rest);
      outcome := Settle(Tickets(batch));
      OpenPart(failed, rest);
      BatchIsSent(old(log), Delivered(Tickets(batch)), log);
      StillWaiting(old(log), failedToRequeue);
    }

    /** The sending loop over batches of fifty. */
    method SendReady() returns (outcome: Outcome)
      requires Valid() && AreOpen(Tickets(failedToRequeue) + Tickets(ready)) && AreWaiting(failedToRequeue)
      requires IsListOf(settings, now, ready, dequeued, true) && SendsOnly([], log, [])
      modifies this`unsettled, this`failedToRequeue, this`acked, this`dropped, this`log, this`settledAll
      ensures Valid() && AreOpen(Tickets(failedToRequeue)) && AreWaiting(failedToRequeue)
      ensures old(log) <= log && old(acked) <= acked && old(failedToRequeue) <= failedToRequeue
      ensures outcome.Done? ==>
                settledAll == old(settledAll) && AreDealtWith(settings, log, acked, failedToRequeue, Tickets(ready))
    {
      var all := ready;
      var start := 0;
      ghost var sent := 0;
      OpenPart(Tickets(failedToRequeue), Tickets(ready));
      assert all[0..] == all && Tickets(all[..0]) == [];
      while start < |all|
        invariant 0 <= start && 0 <= sent <= |all| && sent == if start < |all| then start else |all|
        invariant Valid() && AreOpen(Tickets(failedToRequeue)) && AreWaiting(failedToRequeue)
        invariant old(log) <= log && old(acked) <= acked && old(failedToRequeue) <= failedToRequeue
        invariant AreOpen(Tickets(failedToRequeue) + Tickets(all[sent..])) && settledAll == old(settledAll)
        invariant SendsOnly([], log, Tickets(all[..sent]))
        invariant AreDealtWith(settings, log, acked, failedToRequeue, Tickets(all[..sent]))
        decreases |all| - start
      {
        var end := if start + BATCH_SIZE < |all| then start + BATCH_SIZE else |all|;
        var batch := all[start..end];
        CutInTwo(all, start, end);
        NextBatch(all, start, end);
        ghost var logged, done, waiting := log, acked, failedToRequeue;
        outcome := SendBatch(batch, Tickets(all[end..]));
        if !outcome.Done? {
          return;
        }
        MoreDealtWith(settings, logged, done, waiting, log, acked, failedToRequeue, Tickets(all[..start]), Tickets(batch));
        start := start + BATCH_SIZE;
        sent := end;
      }
      assert all[..|all|] == all;
      outcome := Done;
    }

    lemma NextBatch(all: seq<(Ticket, Note)>, start: nat, end: nat)
      requires start < end <= |all| && end <= start + BATCH_SIZE && IsListOf(settings, now, all, dequeued, true)
      requires SendsOnly([], log, Tickets(all[..start]))
      ensures MaySend(settings, now, log, Tickets(all[start..end]))
    {
      var batch := Tickets(all[start..end]);
      forall i | 0 <= i < |batch|
        ensures IsFor(settings, now, batch[i], true) && SentAreOlder(log, batch[i])
      {
        assert batch[i] == Tickets(all)[start + i] && batch[i] in Tickets(all);
        forall u | WasSent(log, u)
          ensures u.id < batch[i].id
        {
          var k :| 0 <= k < start && u == Tickets(all[..start])[k];
          assert u == Tickets(all)[k];
        }
      }
      assert forall i :: 0 <= i < |batch| ==> batch[i] == Tickets(all)[start + i];
    }

    /** One waiting item: its replacement is enqueued first, and only then is it settled. */
    method RequeueOne(t: Ticket, note: Note, enqueued: Outcome, ghost others: seq<Ticket>) returns (outcome: Outcome)
      requires Valid() && AreOpen([t] + others) && MayReplace(settings, now, log, t, note)
      modifies this`unsettled, this`acked, this`dropped, this`log, this`settledAll
      ensures Valid() && AreOpen(others) && old(log) <= log && old(acked) <= acked
      ensures settledAll == (old(settledAll) && (outcome.Done? || enqueued.Cancelled?))
      ensures enqueued.Cancelled? ==> outcome.Cancelled? && t in unsettled
      ensures enqueued.Raised? ==> t in unsettled
      ensures forall u :: u in old(unsettled) && u != t ==> u in unsettled
      ensures enqueued.Done? && outcome.Done? ==> Replaced(t, note) in log && t in acked
    {
      OpenPart([t], others);
      assert t in [t] + others;
      match enqueued
      case Cancelled =>
        outcome := Cancelled;
      case Raised =>
        outcome := Done;
      case Done =>
        Happens(Replaced(t, note));
        ghost var replaced := log;
        assert replaced[|replaced| - 1] == Replaced(t, note);
        assert [] + others == others && [] + [t] + others == [t] + others;
        DistinctWithout([], [t], others);
        outcome := Settle([t]);
        assert log[|replaced| - 1] == Replaced(t, note);
    }

    /** The requeue loop of the final section; a cancelled enqueue leaves it at once. */
    method Requeue(enqueue: Ticket -> Outcome) returns (outcome: Outcome)
      requires Valid() && AreOpen(Tickets(failedToRequeue)) && AreWaiting(failedToRequeue)
      modifies this`unsettled, this`acked, this`dropped, this`log, this`settledAll
      ensures Valid() && old(log) <= log && old(acked) <= acked
      ensures !settledAll || outcome.Done? || unsettled != []
      ensures settledAll ==> (outcome.Done? <==> forall t :: t in Tickets(failedToRequeue) ==> !enqueue(t).Cancelled?)
      ensures outcome.Done? ==> AreRequeued(log, acked, unsettled, failedToRequeue, enqueue)
    {
      var pairs := failedToRequeue;
      var all := Tickets(pairs);
      for i := 0 to |pairs|
        invariant Valid() && old(log) <= log && old(acked) <= acked && AreWaiting(pairs)
        invariant AreOpen(all[i..]) && AreRequeued(log, acked, unsettled, pairs[..i], enqueue)
      {
        var (t, note) := pairs[i];
        assert all[i..] == [t] + all[i + 1..] && all[i] == t && t in all;
        ghost var logged, done, open := log, acked, unsettled;
        outcome := RequeueOne(t, note, enqueue(t), all[i + 1..]);
        StillWaiting(logged, pairs);
        if !outcome.Done? {
          return;
        }
        OneMoreRequeued(logged, done, open, log, acked, unsettled, pairs, i, enqueue);
      }
      assert pairs[..|pairs|] == pairs;
      outcome := Done;
      NoneCancelled(pairs, enqueue);
    }

    lemma NoneCancelled(pairs: seq<(Ticket, Note)>, enqueue: Ticket -> Outcome)
      requires AreRequeued(log, acked, unsettled, pairs, enqueue)
      ensures forall t :: t in Tickets(pairs) ==> !enqueue(t).Cancelled?
    {
      forall t | t in Tickets(pairs)
        ensures !enqueue(t).Cancelled?
      {
        var k :| 0 <= k < |pairs| && Tickets(pairs)[k] == t;
        assert IsRequeued(log, acked, unsettled, pairs[k], enqueue(pairs[k].0));
      }
    }

    /** queue.release: hands back one item after the other; only a cancellation cuts it short. */
    method ReleaseAll() returns (outcome: Outcome)
      requires Valid()
      modifies this`unsettled, this`released, this`log
      ensures Valid() && old(log) <= log
      ensures !outcome.Raised? && (outcome.Done? ==> unsettled == [])
    {
      var k: int := *;
      outcome := Cancelled;
      if !(0 <= k < |unsettled|) {
        outcome := Done;
        k := |unsettled|;
      }
      var handedBack := unsettled[..k];
      assert handedBack == unsettled[..k] && (k == |unsettled| ==> handedBack == unsettled);
      for i := 0 to k
        invariant Valid() && old(log) <= log
      {
        Happens(Released(handedBack[i]));
      }
      released := released + SetOf(handedBack);
      unsettled := Without(unsettled, handedBack);
      assert |unsettled| > 0 ==> unsettled[0] in unsettled;
    }

    /** Every item that is due was dealt with, every item that is not due is put down, and the rest is acknowledged. */
    ghost predicate AreAllDone(early: seq<(Ticket, Note)>)
      reads this
    {
      && IsListOf(settings, now, ready, dequeued, true) && IsListOf(settings, now, early, dequeued, false)
      && early <= failedToRequeue && AreDealtWith(settings, log, acked, failedToRequeue, Tickets(ready))
      && forall t :: t in dequeued && (t.content.Malformed? || t.content.note.tries >= settings.recurrent) ==> t in acked
    }

    /** The body of the session: the dequeue loop and the sending loop. */
    method TakeAndSend(arrivals: seq<Arrival>) returns (outcome: Outcome, ghost early: seq<(Ticket, Note)>)
      requires Valid() && IsUnused()
      modifies this
      ensures Valid() && ArrivedFrom(arrivals) && AreOpen(Tickets(failedToRequeue)) && AreWaiting(failedToRequeue)
      ensures outcome.Done? ==> AreAllDone(early)
    {
      outcome := TakeItems(arrivals);
      early := failedToRequeue;
      AcksSendNothing([], log);
      EarlyAreWaiting();
      if outcome.Done? {
        outcome := SendReady();
      }
    }

    /** Every item is left as it should be, once each was sent or put down and the requeue loop has ended. */
    lemma AllEndRight(enqueue: Ticket -> Outcome, early: seq<(Ticket, Note)>)
      requires AreAllDone(early) && Valid()
      requires AreRequeued(log, acked, unsettled, failedToRequeue, enqueue)
      ensures forall t :: t in dequeued ==> EndsRight(settings, now, log, acked, t, enqueue(t))
    {
      forall t | t in dequeued
        ensures EndsRight(settings, now, log, acked, t, enqueue(t))
      {
        if t in Tickets(failedToRequeue) {
          var k :| 0 <= k < |failedToRequeue| && Tickets(failedToRequeue)[k] == t;
          assert IsRequeued(log, acked, unsettled, failedToRequeue[k], enqueue(failedToRequeue[k].0));
          assert IsReplacedOrKept(log, acked, t, enqueue(t));
        }
        if IsFor(settings, now, t, false) {
          assert t in Tickets(early);
          var k :| 0 <= k < |early| && Tickets(early)[k] == t;
          assert Tickets(failedToRequeue)[k] == t;
        } else if IsFor(settings, now, t, true) {
          assert t in Tickets(ready);
        }
      }
    }

    /** What was done stays so while items are requeued or handed back. */
    twostate lemma StaysDone(early: seq<(Ticket, Note)>)
      requires old(AreAllDone(early)) && old(log) <= log && old(acked) <= acked
      requires failedToRequeue == old(failedToRequeue) && ready == old(ready) && dequeued == old(dequeued)
      ensures AreAllDone(early)
    {
      MoreDealtWith(settings, old(log), old(acked), failedToRequeue, log, acked, failedToRequeue, Tickets(ready), []);
      assert Tickets(ready) + [] == Tickets(ready);
    }

    /**
     * send_notifications on a queue that is enabled. No item is ever both acknowledged and
     * handed back. When every _settle and the hand-back complete, every dequeued item is one
     * of the two exactly when no enqueue of the final section was cancelled. A run that is not
     * interrupted leaves every item as it should be.
     */
    method SendNotifications(arrivals: seq<Arrival>, enqueue: Ticket -> Outcome)
      returns (outcome: Outcome, ghost cancelled: bool, ghost handedBack: bool, ghost completed: bool)
      requires Valid() && IsUnused()
      modifies this
      ensures Valid() && acked !! released && ArrivedFrom(arrivals)
      ensures settledAll && handedBack ==>
                (dequeued == acked + released <==>
                 cancelled || forall t :: t in Tickets(failedToRequeue) ==> !enqueue(t).Cancelled?)
      ensures completed ==> forall t :: t in dequeued ==> EndsRight(settings, now, log, acked, t, enqueue(t))
      ensures !completed ==> cancelled || !outcome.Done?
      ensures !handedBack ==> outcome.Cancelled?
    {
      handedBack, completed := true, false;
      ghost var early;
      outcome, early := TakeAndSend(arrivals);
      completed := outcome.Done?;
      if outcome.Done? {
        outcome := *;
      }
      cancelled := outcome.Cancelled?;
      if outcome.Cancelled? {
        var release := ReleaseAll();
        handedBack, completed := release.Done?, false;
        return;
      }
      label BeforeRequeue:
      var requeued := Requeue(enqueue);
      if !requeued.Done? {
        assert unsettled != [] ==> unsettled[0] in SetOf(unsettled) && unsettled[0] in dequeued;
        return requeued, cancelled, handedBack, false;
      }
      ghost var before := log;
      if completed {
        StaysDone@BeforeRequeue(early);
        AllEndRight(enqueue, early);
      }
      if unsettled != [] {
        var release := ReleaseAll();
        handedBack := release.Done?;
        if !release.Done? {
          outcome := release;
        }
      }
      if completed {
        StillEndRight(before, enqueue);
      }
    }

    lemma StillEndRight(before: seq<Event>, enqueue: Ticket -> Outcome)
      requires before <= log && forall t :: t in dequeued ==> EndsRight(settings, now, before, acked, t, enqueue(t))
      ensures forall t :: t in dequeued ==> EndsRight(settings, now, log, acked, t, enqueue(t))
    {
      assert forall k :: 0 <= k < |before| ==> log[k] == before[k];
    }
  }

  /**
   * The failing side is reached: an item that is not due yet is put down for the final section,
   * its enqueue is cancelled there, and the run ends with every _settle complete and the
   * item neither acknowledged nor handed back.
   */
  method CancelledRequeueLeavesAnItem(settings: Settings, note: Note) returns (run: Run, t: Ticket, outcome: Outcome)
    requires note.tries < settings.recurrent
    ensures fresh(run) && run.Valid() && run.settledAll && outcome == Cancelled
    ensures t in run.dequeued && t !in run.acked && t !in run.released
  {
    run := new Run(settings, note.sendAt - 1.0);
    t := run.Receive(Parsed(note), []);
    run.PutDown(t, note, true);
    outcome := run.RequeueOne(t, note, Cancelled, []);
    assert t in SetOf(run.unsettled);
  }
}
