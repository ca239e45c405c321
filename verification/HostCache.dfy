/**
 * The host manager of one worker (app/core/hosts.py, class HostManager): the cache of prepared
 * hosts, the stamps that order updates of one host, and the generation that guards reloads.
 */
module HostCache {

  type HostId = nat
  type Data = string

  /** What preparing a host looks at; `settings` stands for all the other columns. */
  datatype Row = Row(isDisabled: bool, inboundTag: string, settings: string)

  datatype Entry = Absent | Present(data: Data)

  type View = map<HostId, Entry>

  /** The inbounds and the builder of subscription data, which fails on some settings. */
  datatype Env = Env(inbounds: set<string>, build: Row -> Entry)

  /** _prepare_host_entry. */
  function Prepare(env: Env, row: Row): Entry {
    if row.isDisabled || row.inboundTag !in env.inbounds then Absent else env.build(row)
  }

  type Hosts = map<HostId, Data>
  type Stamps = map<HostId, nat>

  function Lookup(hosts: Hosts, h: HostId): Entry {
    if h in hosts then Present(hosts[h]) else Absent
  }

  function StampOf(stamps: Stamps, h: HostId): nat {
    if h in stamps then stamps[h] else 0
  }

  /** What the cache ought to hold for a host. */
  function Wanted(env: Env, rows: map<HostId, Row>, h: HostId): Entry {
    if h in rows then Prepare(env, rows[h]) else Absent
  }

  /** The view of the named hosts that a read of the rows prepares. */
  function ViewOf(env: Env, rows: map<HostId, Row>, ids: set<HostId>): View {
    map h | h in ids :: Wanted(env, rows, h)
  }

  /** Every host that prepares, as a reload builds it. */
  function AllPrepared(env: Env, rows: map<HostId, Row>): Hosts {
    map h | h in rows && Prepare(env, rows[h]).Present? :: Prepare(env, rows[h]).data
  }

  /** The data a row is served with: it is enabled, its inbound is known and its settings build. */
  ghost predicate IsServed(env: Env, row: Row, data: Data) {
    !row.isDisabled && row.inboundTag in env.inbounds && env.build(row) == Present(data)
  }

  /** The hosts held are those whose row is served, each with its data. */
  ghost predicate ServesRows(env: Env, rows: map<HostId, Row>, hosts: Hosts) {
    forall h, data :: (h in hosts && hosts[h] == data) <==> (h in rows && IsServed(env, rows[h], data))
  }

  lemma AllPreparedServes(env: Env, rows: map<HostId, Row>)
    ensures ServesRows(env, rows, AllPrepared(env, rows))
  {
  }

  // ------------------------------------------------------------------ installing a view

  /** A stamp is none (a message from another worker) or the number its operation took. */
  datatype Stamp = NoStamp | Stamped(number: nat)

  predicate Claims(stamps: Stamps, h: HostId, stamp: Stamp) {
    stamp.NoStamp? || stamp.number >= StampOf(stamps, h)
  }

  function EntryAfter(hosts: Hosts, stamps: Stamps, stamp: Stamp, view: View, h: HostId): Entry {
    if h in view && Claims(stamps, h, stamp) then view[h] else Lookup(hosts, h)
  }

  function HostsAfter(hosts: Hosts, stamps: Stamps, stamp: Stamp, view: View): Hosts {
    map h | h in hosts.Keys + view.Keys && EntryAfter(hosts, stamps, stamp, view, h).Present? ::
      EntryAfter(hosts, stamps, stamp, view, h).data
  }

  function StampAfter(stamps: Stamps, stamp: Stamp, view: View, h: HostId): nat {
    if h in view && Claims(stamps, h, stamp) && stamp.Stamped? then stamp.number else StampOf(stamps, h)
  }

  function StampsAfter(stamps: Stamps, stamp: Stamp, view: View): Stamps {
    map h | h in stamps.Keys + view.Keys :: StampAfter(stamps, stamp, view, h)
  }

  function Entries(prepared: seq<(HostId, Data)>): View {
    if prepared == [] then
      map[]
    else
      var last := prepared[|prepared| - 1];
      Entries(prepared[..|prepared| - 1])[last.0 := Present(last.1)]
  }

  function WithRemovals(view: View, removed: seq<HostId>): View {
    if removed == [] then
      view
    else
      WithRemovals(view, removed[..|removed| - 1])[removed[|removed| - 1] := Absent]
  }

  /** Whether `now` is `before` with this view installed, host by host. */
  ghost predicate IsInstalled(
    now: Hosts, nowStamps: Stamps, before: Hosts, stamps: Stamps, stamp: Stamp, view: View)
  {
    forall h ::
      && Lookup(now, h) == EntryAfter(before, stamps, stamp, view, h)
      && StampOf(nowStamps, h) == StampAfter(stamps, stamp, view, h)
  }

  /** Installing one more entry, as each turn of the loops of _add_prepared_hosts_local does. */
  lemma InstallOneMore(
    now: Hosts, nowStamps: Stamps, before: Hosts, stamps: Stamps, stamp: Stamp, view: View, h: HostId, entry: Entry)
    requires IsInstalled(now, nowStamps, before, stamps, stamp, view)
    ensures Claims(nowStamps, h, stamp) == Claims(stamps, h, stamp)
    ensures !Claims(nowStamps, h, stamp) ==> IsInstalled(now, nowStamps, before, stamps, stamp, view[h := entry])
    ensures Claims(nowStamps, h, stamp) ==>
              IsInstalled(
                if entry.Present? then now[h := entry.data] else now - {h},
                if stamp.Stamped? then nowStamps[h := stamp.number] else nowStamps,
                before, stamps, stamp, view[h := entry])
  {
    assert StampOf(nowStamps, h) == StampAfter(stamps, stamp, view, h);
    if Claims(nowStamps, h, stamp) {
      var next := if entry.Present? then now[h := entry.data] else now - {h};
      var nextStamps := if stamp.Stamped? then nowStamps[h := stamp.number] else nowStamps;
      forall k
        ensures Lookup(next, k) == EntryAfter(before, stamps, stamp, view[h := entry], k)
        ensures StampOf(nextStamps, k) == StampAfter(stamps, stamp, view[h := entry], k)
      {
        assert Lookup(now, k) == EntryAfter(before, stamps, stamp, view, k);
        assert StampOf(nowStamps, k) == StampAfter(stamps, stamp, view, k);
      }
    }
  }

  // ------------------------------------------------------------------ the manager in place

  class HostManager {
    var hosts: Hosts
    var hostStamps: Stamps
    var stamp: nat
    var generation: nat

    constructor ()
      ensures hosts == map[] && hostStamps == map[] && stamp == 0 && generation == 0
    {
      hosts, hostStamps, stamp, generation := map[], map[], 0, 0;
    }

    /** A stamp is larger than every stamp taken before. */
    method NextStamp() returns (taken: nat)
      modifies this`stamp
      ensures taken == stamp == old(stamp) + 1
    {
      stamp := stamp + 1;
      return stamp;
    }

    method ClaimHost(h: HostId, stamp: Stamp) returns (claimed: bool)
      modifies this`hostStamps
      ensures claimed == Claims(old(hostStamps), h, stamp)
      ensures hostStamps == if claimed && stamp.Stamped? then old(hostStamps)[h := stamp.number] else old(hostStamps)
    {
      if stamp.NoStamp? {
        return true;
      }
      if stamp.number < StampOf(hostStamps, h) {
        return false;
      }
      hostStamps := hostStamps[h := stamp.number];
      return true;
    }

    /** _add_prepared_hosts_local: installs what it claims, removals last, and counts one generation. */
    method AddPreparedHostsLocal(prepared: seq<(HostId, Data)>, stamp: Stamp, removed: seq<HostId>)
      modifies this`hosts, this`hostStamps, this`generation
      ensures IsInstalled(hosts, hostStamps, old(hosts), old(hostStamps), stamp, WithRemovals(Entries(prepared), removed))
      ensures hosts == HostsAfter(old(hosts), old(hostStamps), stamp, WithRemovals(Entries(prepared), removed))
      ensures generation == old(generation) + 1
    {
      for i := 0 to |prepared|
        invariant IsInstalled(hosts, hostStamps, old(hosts), old(hostStamps), stamp, Entries(prepared[..i]))
        invariant generation == old(generation)
      {
        assert prepared[..i + 1][..i] == prepared[..i];
        InstallOneMore(hosts, hostStamps, old(hosts), old(hostStamps), stamp, Entries(prepared[..i]),
                       prepared[i].0, Present(prepared[i].1));
        var claimed := ClaimHost(prepared[i].0, stamp);
        if claimed {
          ghost var present := hosts;
          hosts := hosts - {prepared[i].0};
          hosts := hosts[prepared[i].0 := prepared[i].1];
          assert hosts == present[prepared[i].0 := prepared[i].1];
        }
      }
      assert prepared[..|prepared|] == prepared;
      for i := 0 to |removed|
        invariant IsInstalled(hosts, hostStamps, old(hosts), old(hostStamps), stamp, WithRemovals(Entries(prepared), removed[..i]))
        invariant generation == old(generation)
      {
        assert removed[..i + 1][..i] == removed[..i];
        InstallOneMore(hosts, hostStamps, old(hosts), old(hostStamps), stamp,
                       WithRemovals(Entries(prepared), removed[..i]), removed[i], Absent);
        var claimed := ClaimHost(removed[i], stamp);
        if claimed {
          hosts := hosts - {removed[i]};
        }
      }
      assert removed[..|removed|] == removed;
      generation := generation + 1;
      SameLookups(hosts, HostsAfter(old(hosts), old(hostStamps), stamp, WithRemovals(Entries(prepared), removed)));
    }

    /** _remove_host_local: its stamp is the newest, so the host goes whatever was installed before. */
    method RemoveHostLocal(h: HostId)
      requires forall k :: StampOf(hostStamps, k) <= stamp
      modifies this
      ensures hosts == old(hosts) - {h} && generation == old(generation) + 1
      ensures StampOf(hostStamps, h) == stamp && forall k :: StampOf(hostStamps, k) <= stamp
    {
      var taken := NextStamp();
      AddPreparedHostsLocal([], Stamped(taken), [h]);
      var view := WithRemovals(Entries([]), [h]);
      assert [h][..0] == [] && view == map[h := Absent];
      assert hosts == old(hosts) - {h};
    }

    /** The locked part of _reload_from_db: a change since `seen` keeps the hosts in memory. */
    method InstallReload(seen: nat, loaded: Hosts) returns (installed: bool)
      modifies this`hosts, this`generation
      ensures installed == (seen == old(generation))
      ensures installed ==> hosts == loaded && generation == seen + 1
      ensures !installed ==> hosts == old(hosts) && generation == old(generation)
    {
      if seen != generation {
        return false;
      }
      hosts := loaded;
      generation := generation + 1;
      return true;
    }
  }

  lemma SameLookups(a: Hosts, b: Hosts)
    requires forall h :: Lookup(a, h) == Lookup(b, h)
    ensures a == b
  {
    forall h
      ensures h in a <==> h in b
      ensures h in a && h in b ==> a[h] == b[h]
    {
      assert Lookup(a, h) == Lookup(b, h);
    }
  }

  /** No data is served for the row. */
  ghost predicate IsHidden(env: Env, row: Row) {
    forall data :: !IsServed(env, row, data)
  }

  /**
   * The preparing loop of _prepare_hosts over rows that were read again: hosts that are gone or
   * do not prepare are listed for removal, so that both lists together are the view of the rows.
   */
  method PrepareHosts(env: Env, rows: map<HostId, Row>, ids: seq<HostId>)
    returns (prepared: seq<(HostId, Data)>, removed: seq<HostId>)
    ensures forall h, data :: (h, data) in prepared <==> h in ids && h in rows && IsServed(env, rows[h], data)
    ensures forall h :: h in removed <==> h in ids && (h in rows ==> IsHidden(env, rows[h]))
    ensures WithRemovals(Entries(prepared), removed) == ViewOf(env, rows, set h | h in ids)
  {
    var found: seq<HostId> := [];
    var gone: seq<HostId> := [];
    for i := 0 to |ids|
      invariant forall h :: h in found <==> h in ids[..i] && h in rows
      invariant forall h :: h in gone <==> h in ids[..i] && h !in rows
    {
      if ids[i] in rows {
        found := found + [ids[i]];
      } else {
        gone := gone + [ids[i]];
      }
    }
    assert ids[..|ids|] == ids;
    prepared, removed := PrepareFound(env, rows, found);
    removed := gone + removed;
    ListsAreTheView(env, rows, ids, prepared, removed);
  }

  lemma ListsAreTheView(env: Env, rows: map<HostId, Row>, ids: seq<HostId>, prepared: seq<(HostId, Data)>, removed: seq<HostId>)
    requires forall h, data :: (h, data) in prepared <==> h in ids && h in rows && IsServed(env, rows[h], data)
    requires forall h :: h in removed <==> h in ids && (h in rows ==> IsHidden(env, rows[h]))
    ensures WithRemovals(Entries(prepared), removed) == ViewOf(env, rows, set h | h in ids)
  {
    EntriesAt(prepared);
    WithRemovalsAt(Entries(prepared), removed);
    var view, want := WithRemovals(Entries(prepared), removed), ViewOf(env, rows, set h | h in ids);
    forall h: HostId
      ensures h in view <==> h in want
      ensures h in view && h in want ==> view[h] == want[h]
    {
      if h in rows {
        PreparedIsServed(env, rows[h]);
      }
    }
  }

  method PrepareFound(env: Env, rows: map<HostId, Row>, found: seq<HostId>)
    returns (prepared: seq<(HostId, Data)>, hidden: seq<HostId>)
    requires forall h :: h in found ==> h in rows
    ensures forall h, data :: (h, data) in prepared <==> h in found && IsServed(env, rows[h], data)
    ensures forall h :: h in hidden <==> h in found && IsHidden(env, rows[h])
  {
    prepared, hidden := [], [];
    for i := 0 to |found|
      invariant forall h, data :: (h, data) in prepared <==> h in found[..i] && IsServed(env, rows[h], data)
      invariant forall h :: h in hidden <==> h in found[..i] && IsHidden(env, rows[h])
    {
      var h := found[i];
      assert found[..i + 1] == found[..i] + [h];
      PreparedIsServed(env, rows[h]);
      match Prepare(env, rows[h]) {
        case Present(data) =>
          prepared := prepared + [(h, data)];
        case Absent =>
          hidden := hidden + [h];
      }
    }
    assert found[..|found|] == found;
  }

  lemma PreparedIsServed(env: Env, row: Row)
    ensures forall data :: Prepare(env, row) == Present(data) <==> IsServed(env, row, data)
    ensures Prepare(env, row).Absent? <==> IsHidden(env, row)
  {
    if Prepare(env, row).Present? {
      assert IsServed(env, row, Prepare(env, row).data);
    }
  }

  /** Where each host has one datum, that is its entry. */
  lemma {:induction false} EntriesAt(prepared: seq<(HostId, Data)>)
    requires forall h, d, e :: (h, d) in prepared && (h, e) in prepared ==> d == e
    ensures forall h, d :: (h, d) in prepared ==> h in Entries(prepared) && Entries(prepared)[h] == Present(d)
    ensures forall h :: h in Entries(prepared) ==> Entries(prepared)[h].Present? && (h, Entries(prepared)[h].data) in prepared
  {
    if prepared != [] {
      EntriesAt(prepared[..|prepared| - 1]);
      assert prepared == prepared[..|prepared| - 1] + [prepared[|prepared| - 1]];
    }
  }

  lemma {:induction false} WithRemovalsAt(view: View, removed: seq<HostId>)
    ensures forall h :: h in WithRemovals(view, removed) <==> h in view || h in removed
    ensures forall h :: h in WithRemovals(view, removed) ==>
              WithRemovals(view, removed)[h] == if h in removed then Absent else view[h]
  {
    if removed != [] {
      WithRemovalsAt(view, removed[..|removed| - 1]);
      assert removed == removed[..|removed| - 1] + [removed[|removed| - 1]];
    }
  }
}
