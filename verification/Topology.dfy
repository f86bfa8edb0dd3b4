/** The etcd watcher: keeps a tablet map up to date and hands it to the router. */
module Topology {
  import opened Text
  import opened Shards
  import opened Router

  /** A stored record; `None` is one whose JSON cannot be read. */
  datatype KeyValue = KeyValue(key: string, value: Option<TabletInfo>)

  datatype Event = Put(kv: KeyValue) | Removal(key: string)

  /** One message of the watch channel. */
  datatype Batch = Batch(events: seq<Event>) | WatchError

  type Tablets = map<string, TabletInfo>

  // ----- what the event log says -----

  function After(tabs: Tablets, ev: Event): (tabs': Tablets) {
    match ev
    case Put(kv) => if kv.value.Some? then tabs[kv.key := kv.value.value] else tabs
    case Removal(key) => tabs - {key}
  }

  function Fold(tabs: Tablets, events: seq<Event>): (tabs': Tablets) {
    if events == [] then tabs else After(Fold(tabs, events[..|events| - 1]), events[|events| - 1])
  }

  function Puts(kvs: seq<KeyValue>): (events: seq<Event>)
    ensures |events| == |kvs| && forall i | 0 <= i < |kvs| :: events[i] == Put(kvs[i])
  {
    seq(|kvs|, i requires 0 <= i < |kvs| => Put(kvs[i]))
  }

  /** The events of all batches up to the first error. */
  function Log(batches: seq<Batch>): (events: seq<Event>) {
    if batches == [] || batches[0].WatchError? then [] else batches[0].events + Log(batches[1..])
  }

  predicate Touches(ev: Event, key: string) {
    match ev
    case Put(kv) => kv.key == key && kv.value.Some?
    case Removal(k) => k == key
  }

  lemma {:induction false} FoldConcat(tabs: Tablets, s: seq<Event>, t: seq<Event>)
    ensures Fold(tabs, s + t) == Fold(Fold(tabs, s), t)
    decreases |t|
  {
    if t == [] {
      assert s + t == s;
    } else {
      assert (s + t)[..|s + t| - 1] == s + t[..|t| - 1];
      FoldConcat(tabs, s, t[..|t| - 1]);
    }
  }

  lemma {:induction false} Untouched(tabs: Tablets, events: seq<Event>, key: string)
    requires forall ev | ev in events :: !Touches(ev, key)
    ensures key in Fold(tabs, events) <==> key in tabs
    ensures key in tabs ==> Fold(tabs, events)[key] == tabs[key]
    decreases |events|
  {
    if events != [] {
      assert events[|events| - 1] in events;
      Untouched(tabs, events[..|events| - 1], key);
    }
  }

  /** The map holds for each key what the last valid event about it says, or else what it held before. */
  lemma LastEventWins(tabs: Tablets, events: seq<Event>, key: string, i: nat)
    requires i < |events| && Touches(events[i], key) && forall j | i < j < |events| :: !Touches(events[j], key)
    ensures key in Fold(tabs, events) <==> events[i].Put?
    ensures events[i].Put? ==> Fold(tabs, events)[key] == events[i].kv.value.value
  {
    var upto, rest := events[..i + 1], events[i + 1..];
    assert events == upto + rest && upto[..i] == events[..i];
    FoldConcat(tabs, upto, rest);
    Untouched(Fold(tabs, upto), rest, key);
  }

  /** `list` holds exactly the tablets of the map. */
  ghost predicate Holds(list: seq<TabletInfo>, tabs: Tablets) {
    && (forall key | key in tabs :: tabs[key] in list)
    && (forall t | t in list :: exists key :: key in tabs && tabs[key] == t)
  }

  ghost predicate IsWanted(a: Addr, tabs: Tablets) {
    exists key :: key in tabs && tabs[key].addr == a
  }

  lemma WantedAddrs(list: seq<TabletInfo>, tabs: Tablets, a: Addr)
    requires Holds(list, tabs)
    ensures a in Wanted(list) <==> IsWanted(a, tabs)
  {
    if a in Wanted(list) {
      assert Wanted(list)[a] in list;
    }
    if IsWanted(a, tabs) {
      var key :| key in tabs && tabs[key].addr == a;
      assert tabs[key] in list;
    }
  }

  /** The groups are those of the tablet map, built in some order. */
  ghost predicate Synced(groups: map<string, ShardGroup>, tabs: Tablets) {
    exists list, order :: Holds(list, tabs) && Visits(order, Wanted(list)) && groups == FixedAll(Build(order))
  }

  /** Clients at addresses that `tabs` still wants are the same objects as before. */
  ghost predicate Kept(before: map<Addr, TabletClient>, tabs: Tablets, after: map<Addr, TabletClient>) {
    forall a | a in before && IsWanted(a, tabs) :: a in after && after[a] == before[a]
  }

  /** Batch `i` takes the tablet map from `maps[i]` to `maps[i + 1]` and the clients along with it. */
  ghost predicate Follows(snaps: seq<map<Addr, TabletClient>>, maps: seq<Tablets>, batches: seq<Batch>, i: nat) {
    && i + 1 < |snaps| && |maps| == |snaps| && i < |batches| && batches[i].Batch?
    && maps[i + 1] == Fold(maps[i], batches[i].events)
    && Kept(snaps[i], maps[i + 1], snaps[i + 1])
  }

  /** A client stays the same object as long as its address stays wanted, whenever it was dialled. */
  lemma {:induction false} KeptThroughout(snaps: seq<map<Addr, TabletClient>>, maps: seq<Tablets>, batches: seq<Batch>,
                                          i: nat, j: nat, a: Addr)
    requires i <= j < |snaps| == |maps| && forall k: nat | k + 1 < |snaps| :: Follows(snaps, maps, batches, k)
    requires a in snaps[i] && forall k | i < k <= j :: IsWanted(a, maps[k])
    ensures a in snaps[j] && snaps[j][a] == snaps[i][a]
    decreases j - i
  {
    if i < j {
      KeptThroughout(snaps, maps, batches, i, j - 1, a);
      var k := j - 1;
      assert Follows(snaps, maps, batches, k);
    }
  }

  // ----- the groups do not depend on iteration order -----

  /** Records with one address are the same record. */
  ghost predicate OneRecord(tabs: Tablets) {
    forall j, k | j in tabs && k in tabs && tabs[j].addr == tabs[k].addr :: tabs[j] == tabs[k]
  }

  lemma WantedIs(list: seq<TabletInfo>, tabs: Tablets, key: string)
    requires Holds(list, tabs) && OneRecord(tabs) && key in tabs
    ensures tabs[key].addr in Wanted(list) && Wanted(list)[tabs[key].addr] == tabs[key]
  {
    assert tabs[key] in list;
    assert Wanted(list)[tabs[key].addr] in list;
  }

  lemma WantedSame(s: seq<TabletInfo>, t: seq<TabletInfo>, tabs: Tablets)
    requires Holds(s, tabs) && Holds(t, tabs) && OneRecord(tabs)
    ensures Wanted(s) == Wanted(t)
  {
    forall a ensures a in Wanted(s) <==> a in Wanted(t)
             ensures a in Wanted(s) && a in Wanted(t) ==> Wanted(s)[a] == Wanted(t)[a]
    {
      WantedAddrs(s, tabs, a);
      WantedAddrs(t, tabs, a);
      if IsWanted(a, tabs) {
        var key :| key in tabs && tabs[key].addr == a;
        WantedIs(s, tabs, key);
        WantedIs(t, tabs, key);
      }
    }
  }

  /** Whatever order the maps are iterated in, consistent records in etcd lead to the same groups. */
  lemma SyncedSame(g: map<string, ShardGroup>, h: map<string, ShardGroup>, tabs: Tablets)
    requires Synced(g, tabs) && Synced(h, tabs) && OneRecord(tabs)
    requires forall list | Holds(list, tabs) :: AllConsistent(Wanted(list))
    ensures g.Keys == h.Keys && forall k | k in g :: SameGroup(g[k], h[k])
  {
    hide Holds, Visits, Build, FixedAll, Wanted, AllConsistent, OneRecord, SameGroup;
    var s, o :| Holds(s, tabs) && Visits(o, Wanted(s)) && g == FixedAll(Build(o));
    var t, p :| Holds(t, tabs) && Visits(p, Wanted(t)) && h == FixedAll(Build(p));
    WantedSame(s, t, tabs);
    SyncIndependentOfOrder(o, p, Wanted(s));
  }

  class EtcdTopology {
    var tablets: Tablets
    const router: Router

    constructor (router: Router)
      ensures tablets == map[] && this.router == router
    {
      tablets := map[];
      this.router := router;
    }

    /** The tablets in whatever order the map is iterated. */
    method ListTablets() returns (out: seq<TabletInfo>)
      ensures Holds(out, tablets)
    {
      out := [];
      var rest := tablets.Keys;
      while rest != {}
        invariant rest <= tablets.Keys && Holds(out, tablets - rest)
        decreases |rest|
      {
        var key :| key in rest;
        ghost var before := tablets - rest;
        assert (tablets - (rest - {key})) == before[key := tablets[key]];
        OneMore(out, before, key, tablets[key]);
        out := out + [tablets[key]];
        rest := rest - {key};
      }
      assert tablets - rest == tablets;
    }

    /** The callback: the router takes over the current tablets. */
    method Update(dials: set<Addr>)
      requires router.Valid()
      modifies router, router.clients.Values
      ensures router.Valid() && old(router.dialed) <= router.dialed && fresh(router.dialed - old(router.dialed))
      ensures Synced(router.groups, tablets)
      ensures forall a | a in router.clients :: IsWanted(a, tablets)
      ensures Kept(old(router.clients), tablets, router.clients)
      ensures forall a | a in dials && IsWanted(a, tablets) :: a in router.clients
    {
      var list := ListTablets();
      ghost var order := router.Sync(list, dials);
      forall a ensures a in Wanted(list) <==> IsWanted(a, tablets) { WantedAddrs(list, tablets, a); }
    }

    method Load(kvs: seq<KeyValue>)
      modifies `tablets
      ensures tablets == Fold(old(tablets), Puts(kvs))
    {
      for i := 0 to |kvs|
        invariant tablets == Fold(old(tablets), Puts(kvs)[..i])
      {
        assert Puts(kvs)[..i + 1][..i] == Puts(kvs)[..i];
        if kvs[i].value.Some? {
          tablets := tablets[kvs[i].key := kvs[i].value.value];
        }
      }
      assert Puts(kvs)[..|kvs|] == Puts(kvs);
    }

    /** One batch; `changed` stays false only if the map is as before. */
    method Absorb(events: seq<Event>) returns (changed: bool)
      modifies `tablets
      ensures tablets == Fold(old(tablets), events)
      ensures !changed ==> tablets == old(tablets)
    {
      changed := false;
      for i := 0 to |events|
        invariant tablets == Fold(old(tablets), events[..i])
        invariant !changed ==> tablets == old(tablets)
      {
        assert events[..i + 1][..i] == events[..i];
        match events[i]
        case Put(kv) =>
          if kv.value.Some? {
            tablets := tablets[kv.key := kv.value.value];
            changed := true;
          }
        case Removal(key) =>
          tablets := tablets - {key};
          changed := true;
      }
      assert events[..|events|] == events;
    }

    /** `Watch`: loads the stored records, then follows the batches until the channel ends or fails.
        `dials` says for each call of the router which addresses can be dialled then. `snaps` and `maps`
        are the clients and the tablets after the load and after each batch. */
    method Watch(stored: seq<KeyValue>, batches: seq<Batch>, dials: nat -> set<Addr>)
      returns (failed: bool, ghost snaps: seq<map<Addr, TabletClient>>, ghost maps: seq<Tablets>)
      requires router.Valid()
      modifies this, router, router.dialed
      ensures failed <==> WatchError in batches
      ensures tablets == Fold(old(tablets), Puts(stored) + Log(batches))
      ensures router.Valid() && Synced(router.groups, tablets)
      ensures old(router.dialed) <= router.dialed && forall a | a in router.clients :: IsWanted(a, tablets)
      ensures 1 <= |snaps| == |maps| <= |batches| + 1 && (|maps| <= |batches| ==> batches[|maps| - 1].WatchError?)
      ensures maps[0] == Fold(old(tablets), Puts(stored)) && Kept(old(router.clients), maps[0], snaps[0])
      ensures forall i: nat | i + 1 < |snaps| :: Follows(snaps, maps, batches, i)
      ensures snaps[|snaps| - 1] == router.clients && maps[|maps| - 1] == tablets
    {
      hide Synced, Fold, IsWanted, Kept, Follows;
      Load(stored);
      Update(dials(0));
      ghost var loaded := tablets;
      snaps, maps := [router.clients], [tablets];
      FoldConcat(old(tablets), Puts(stored), Log(batches));
      failed := false;
      for i := 0 to |batches|
        invariant WatchError !in batches[..i]
        invariant Fold(tablets, Log(batches[i..])) == Fold(loaded, Log(batches))
        invariant router.Valid() && Synced(router.groups, tablets)
        invariant old(router.dialed) <= router.dialed && fresh(router.dialed - old(router.dialed))
        invariant forall a | a in router.clients :: IsWanted(a, tablets)
        invariant |snaps| == |maps| == i + 1 && snaps[i] == router.clients && maps[i] == tablets
        invariant maps[0] == loaded && Kept(old(router.clients), maps[0], snaps[0])
        invariant forall k: nat | k < i :: Follows(snaps, maps, batches, k)
      {
        assert batches[i..][0] == batches[i] && batches[i..][1..] == batches[i + 1..];
        if batches[i].WatchError? {
          FoldNone(tablets);
          return true, snaps, maps;
        }
        FoldConcat(tablets, batches[i].events, Log(batches[i + 1..]));
        var changed := Absorb(batches[i].events);
        if changed {
          Update(dials(i + 1));
        } else {
          KeptSame(router.clients, tablets);
        }
        FollowsGrow(snaps, maps, batches, router.clients, tablets);
        snaps, maps := snaps + [router.clients], maps + [tablets];
      }
      FoldNone(tablets);
    }
  }

  lemma KeptSame(clients: map<Addr, TabletClient>, tabs: Tablets)
    ensures Kept(clients, tabs, clients)
  {
  }

  lemma FollowsGrow(snaps: seq<map<Addr, TabletClient>>, maps: seq<Tablets>, batches: seq<Batch>,
                    clients: map<Addr, TabletClient>, tabs: Tablets)
    requires 1 <= |snaps| == |maps| <= |batches| && batches[|maps| - 1].Batch?
    requires forall k: nat | k < |maps| - 1 :: Follows(snaps, maps, batches, k)
    requires tabs == Fold(maps[|maps| - 1], batches[|maps| - 1].events) && Kept(snaps[|maps| - 1], tabs, clients)
    ensures forall k: nat | k < |maps| :: Follows(snaps + [clients], maps + [tabs], batches, k)
  {
    hide Kept, Fold;
    forall k: nat | k < |maps| ensures Follows(snaps + [clients], maps + [tabs], batches, k) {
      if k < |maps| - 1 {
        assert Follows(snaps, maps, batches, k);
      }
    }
  }

  lemma FoldNone(tabs: Tablets)
    ensures Fold(tabs, []) == tabs
  {
  }

  lemma OneMore(out: seq<TabletInfo>, tabs: Tablets, key: string, t: TabletInfo)
    requires Holds(out, tabs) && key !in tabs
    ensures Holds(out + [t], tabs[key := t])
  {
    var tabs' := tabs[key := t];
    forall u | u in out + [t] ensures exists k :: k in tabs' && tabs'[k] == u {
      if u in out {
        var k :| k in tabs && tabs[k] == u;
        assert tabs'[k] == u;
      } else {
        assert tabs'[key] == u;
      }
    }
  }
}
