/** The router: its tablet clients, its shard groups, and how it picks targets. */
module Router {
  import opened Text
  import opened Sql
  import opened Parser
  import opened Shards

  /** A connection to one tablet; `closes` counts how often it was closed. */
  class TabletClient {
    const addr: Addr
    var closes: nat

    constructor (addr: Addr)
      ensures this.addr == addr && closes == 0
    {
      this.addr := addr;
      closes := 0;
    }

    method Close()
      modifies this
      ensures closes == old(closes) + 1
    {
      closes := closes + 1;
    }
  }

  /** A request as the gate's parser sees it. */
  datatype Request = Unparsed | TxControlStatement | Parsed(stmt: Statement)

  datatype RouteResult = RouteResult(targets: seq<TabletClient>, scatter: bool, txControl: bool, write: bool)

  // ----- the routing relation, in terms of addresses -----

  /** The tablets a scatter over primaries reaches, in the order of the group keys. */
  function ScatterAddrs(groups: map<string, ShardGroup>, keys: seq<string>, reachable: set<Addr>): (addrs: seq<Addr>) {
    if keys == [] then []
    else
      var init, k := ScatterAddrs(groups, keys[..|keys| - 1], reachable), keys[|keys| - 1];
      if k in groups && groups[k].primary.addr in reachable then init + [groups[k].primary.addr] else init
  }

  /** A scatter over primaries has no target exactly if no group's primary can be reached. */
  lemma {:induction false} NoTargetIff(groups: map<string, ShardGroup>, keys: seq<string>, reachable: set<Addr>)
    ensures ScatterAddrs(groups, keys, reachable) == []
       <==> forall k | k in keys && k in groups :: groups[k].primary.addr !in reachable
    decreases |keys|
  {
    if keys != [] {
      assert keys == keys[..|keys| - 1] + [keys[|keys| - 1]];
      NoTargetIff(groups, keys[..|keys| - 1], reachable);
    }
  }

  /** The shard key of a statement on a sharded table. */
  function ShardKey(vs: map<string, string>, stmt: Statement): (key: Option<int>) {
    var table := TableName(stmt);
    if table.Some? && table.value != "" && table.value in vs && KeyText(stmt, vs[table.value]).Some?
    then ParseInt(KeyText(stmt, vs[table.value]).value)
    else None
  }

  /** The shard key of a one-row INSERT is the number in its shard column, wherever that column stands. */
  lemma InsertKeyIs(vs: map<string, string>, stmt: Statement, i: nat, n: int)
    requires stmt.Insert? && stmt.table != "" && stmt.table in vs && |stmt.rows| == 1 && IsInt64(n)
    requires i < |stmt.columns| && i < |stmt.rows[0]| && stmt.columns[i] == vs[stmt.table]
    requires vs[stmt.table] !in stmt.columns[..i]
    requires stmt.rows[0][i] == Number(n) || stmt.rows[0][i] == Quoted(FormatInt(n))
    ensures ShardKey(vs, stmt) == Some(n)
  {
    FirstIndexIs(stmt.columns, vs[stmt.table], i);
    NumberText(n);
  }

  /** The shard key of a statement with a WHERE clause is the number its leftmost equality on the shard column names. */
  lemma WhereKeyIs(vs: map<string, string>, stmt: Statement, e: Expr, n: int)
    requires TableName(stmt).Some? && TableName(stmt).value != "" && TableName(stmt).value in vs && IsInt64(n)
    requires stmt.Select? || stmt.Update? || stmt.Delete?
    requires (if stmt.Select? then stmt.query.where else stmt.where) == Some(e)
    requires LeftmostEquality(e, vs[TableName(stmt).value], Number(n))
             || LeftmostEquality(e, vs[TableName(stmt).value], Quoted(FormatInt(n)))
    ensures ShardKey(vs, stmt) == Some(n)
  {
    var column := vs[TableName(stmt).value];
    LeftmostFound(e, column);
    NumberText(n);
  }

  /** Group `k` owns the statement's shard key and its primary can be reached. */
  ghost predicate Owns(groups: map<string, ShardGroup>, reachable: set<Addr>, vs: map<string, string>, stmt: Statement,
                       k: string) {
    && ShardKey(vs, stmt).Some? && k in groups && groups[k].primary.addr in reachable
    && groups[k].start <= ShardKey(vs, stmt).value < groups[k].end
  }

  /** How a statement is routed to primaries: to one owner of its key, or to every group; to every
      group only if it has no key, or no group owns the key, or an owner cannot be reached. */
  ghost predicate PrimaryRoute(groups: map<string, ShardGroup>, keys: seq<string>, reachable: set<Addr>,
                               vs: map<string, string>, stmt: Statement, addrs: seq<Addr>, scatter: bool) {
    if scatter then
      && addrs == ScatterAddrs(groups, keys, reachable)
      && (ShardKey(vs, stmt).None?
          || (forall k | k in groups :: !(groups[k].start <= ShardKey(vs, stmt).value < groups[k].end))
          || exists k :: && k in groups && groups[k].start <= ShardKey(vs, stmt).value < groups[k].end
                         && groups[k].primary.addr !in reachable)
    else
      exists k :: Owns(groups, reachable, vs, stmt, k) && addrs == [groups[k].primary.addr]
  }

  function Addrs(targets: seq<TabletClient>): (addrs: seq<Addr>)
    ensures |addrs| == |targets| && forall i | 0 <= i < |addrs| :: addrs[i] == targets[i].addr
  {
    seq(|targets|, i requires 0 <= i < |targets| => targets[i].addr)
  }

  // ----- which tablets are wanted -----

  /** Two records with one address: the later one counts. */
  function Wanted(tablets: seq<TabletInfo>): (want: map<Addr, TabletInfo>)
    ensures forall a | a in want :: want[a].addr == a && want[a] in tablets
    ensures forall t | t in tablets :: t.addr in want
  {
    if tablets == [] then map[]
    else Wanted(tablets[..|tablets| - 1])[tablets[|tablets| - 1].addr := tablets[|tablets| - 1]]
  }

  /** The last record of an address is the one that counts. */
  lemma {:induction false} LastRecordCounts(tablets: seq<TabletInfo>, i: nat)
    requires i < |tablets| && forall j | i < j < |tablets| :: tablets[j].addr != tablets[i].addr
    ensures tablets[i].addr in Wanted(tablets) && Wanted(tablets)[tablets[i].addr] == tablets[i]
    decreases |tablets|
  {
    hide Wanted;
    var n := |tablets| - 1;
    var init := tablets[..n];
    if i < n {
      assert init[i] == tablets[i];
      LastRecordCounts(init, i);
    }
    WantedGrows(tablets, i);
  }

  lemma WantedGrows(tablets: seq<TabletInfo>, i: nat)
    requires i < |tablets|
    requires i < |tablets| - 1 ==>
               && tablets[|tablets| - 1].addr != tablets[i].addr
               && tablets[i].addr in Wanted(tablets[..|tablets| - 1])
               && Wanted(tablets[..|tablets| - 1])[tablets[i].addr] == tablets[i]
    ensures tablets[i].addr in Wanted(tablets) && Wanted(tablets)[tablets[i].addr] == tablets[i]
  {
  }

  method WantedTablets(tablets: seq<TabletInfo>) returns (want: map<Addr, TabletInfo>)
    ensures want == Wanted(tablets)
  {
    want := map[];
    for i := 0 to |tablets|
      invariant want == Wanted(tablets[..i])
    {
      assert tablets[..i + 1][..i] == tablets[..i];
      want := want[tablets[i].addr := tablets[i]];
    }
    assert tablets[..|tablets|] == tablets;
  }

  class Router {
    var clients: map<Addr, TabletClient>
    var groups: map<string, ShardGroup>
    var orderedKeys: seq<string>
    var replicaCursor: nat
    const vs: map<string, string>

    /** Every client this router ever opened. */
    ghost var dialed: set<TabletClient>

    /** Every client ever opened is cached under its address and open, or was closed exactly once. */
    ghost predicate ClientsOk()
      reads `clients, `dialed, dialed
    {
      && (forall a | a in clients :: clients[a] in dialed && clients[a].addr == a)
      && (forall c | c in dialed :: c.closes == if c.addr in clients && clients[c.addr] == c then 0 else 1)
    }

    /** The ordered keys enumerate the groups without repeats. */
    ghost predicate Valid()
      reads this, dialed
    {
      ClientsOk() && Enumerates(orderedKeys, groups.Keys)
    }

    constructor (vs: map<string, string>)
      ensures Valid() && clients == map[] && groups == map[] && dialed == {} && this.vs == vs
    {
      this.vs := vs;
      clients, groups, orderedKeys, replicaCursor, dialed := map[], map[], [], 0, {};
    }

    /** The first loop of `Sync` over the wanted tablets, in an arbitrary order. */
    static method GroupTablets(want: map<Addr, TabletInfo>)
      returns (newGroups: map<string, ShardGroup>, ghost order: seq<TabletInfo>)
      requires forall a | a in want :: want[a].addr == a
      ensures Visits(order, want) && newGroups == Build(order)
    {
      hide Visits;
      newGroups := map[];
      order := [];
      var rest := want.Keys;
      NoneVisited(want);
      while rest != {}
        invariant rest <= want.Keys && newGroups == Build(order) && Visits(order, want - rest)
        decreases |rest|
      {
        var a :| a in rest;
        var t := want[a];
        var key := GroupKey(t);
        var g := if key in newGroups then newGroups[key]
                 else ShardGroup(t.keyspace, t.shard, t.start, t.end, NO_TABLET, []);
        if IsPrimary(t) {
          g := g.(primary := t);
        } else {
          g := g.(replicas := g.replicas + [t]);
        }
        VisitOne(order, want, rest, a);
        newGroups := newGroups[key := g];
        order := order + [t];
        rest := rest - {a};
      }
      assert want - rest == want;
    }

    /** The second loop of `Sync`: groups with range 0/0 take over another one. */
    static method FixRanges(built: map<string, ShardGroup>) returns (newGroups: map<string, ShardGroup>)
      ensures newGroups == FixedAll(built)
    {
      newGroups := built;
      var todo := built.Keys;
      while todo != {}
        invariant todo <= built.Keys == newGroups.Keys
        invariant forall k | k in built :: newGroups[k] == if k in todo then built[k] else Fixed(built[k])
        decreases |todo|
      {
        var k :| k in todo;
        var g := newGroups[k];
        if g.primary.addr != "" {
          if g.start == 0 && g.end == 0 {
            newGroups := newGroups[k := g.(start := g.primary.start, end := g.primary.end)];
          }
        } else if |g.replicas| > 0 {
          if g.start == 0 && g.end == 0 {
            newGroups := newGroups[k := g.(start := g.replicas[0].start, end := g.replicas[0].end)];
          }
        }
        todo := todo - {k};
      }
    }

    method EvictOne(addr: Addr)
      requires ClientsOk() && addr in clients
      modifies `clients, clients[addr]
      ensures ClientsOk() && clients == old(clients) - {addr}
      ensures forall c | c in dialed && c != old(clients)[addr] :: c.closes == old(c.closes)
    {
      var c := clients[addr];
      c.Close();
      clients := clients - {addr};
    }

    /** Drops clients whose address is no longer wanted, closing each. */
    method Evict(want: map<Addr, TabletInfo>)
      requires ClientsOk()
      modifies `clients, clients.Values
      ensures ClientsOk()
      ensures clients == map a | a in old(clients) && a in want :: old(clients)[a]
    {
      hide ClientsOk;
      ghost var was := clients;
      var rest := clients.Keys;
      while rest != {}
        invariant rest <= was.Keys && ClientsOk()
        invariant forall a :: a in clients <==> a in was && (a in rest || a in want)
        invariant forall a | a in clients :: clients[a] == was[a]
        decreases |rest|
      {
        var addr :| addr in rest;
        if addr !in want {
          EvictOne(addr);
        }
        rest := rest - {addr};
      }
    }

    method DialOne(addr: Addr)
      requires ClientsOk() && addr !in clients
      modifies `clients, `dialed
      ensures ClientsOk() && addr in clients && clients == old(clients)[addr := clients[addr]]
      ensures fresh(clients[addr]) && dialed == old(dialed) + {clients[addr]}
    {
      var tc := new TabletClient(addr);
      clients := clients[addr := tc];
      dialed := dialed + {tc};
    }

    /** Dials the wanted addresses that have no client yet; `dials` are those that can be dialled now. */
    method Dial(want: map<Addr, TabletInfo>, dials: set<Addr>)
      requires ClientsOk()
      modifies `clients, `dialed
      ensures ClientsOk() && old(dialed) <= dialed && fresh(dialed - old(dialed))
      ensures clients.Keys == old(clients).Keys + (set a | a in want && a in dials)
      ensures forall a | a in old(clients) :: clients[a] == old(clients)[a]
    {
      hide ClientsOk;
      ghost var was := clients;
      var rest := want.Keys;
      while rest != {}
        invariant rest <= want.Keys && ClientsOk() && old(dialed) <= dialed && fresh(dialed - old(dialed))
        invariant clients.Keys == was.Keys + (set a | a in want && a !in rest && a in dials)
        invariant forall a | a in was :: a in clients && clients[a] == was[a]
        decreases |rest|
      {
        var addr :| addr in rest;
        if addr !in clients && addr in dials {
          DialOne(addr);
        }
        rest := rest - {addr};
      }
    }

    /** `Sync`: rebuild the groups, drop and close what is gone, keep what stays, dial what is new. */
    method Sync(tablets: seq<TabletInfo>, dials: set<Addr>) returns (ghost order: seq<TabletInfo>)
      requires Valid()
      modifies this, clients.Values
      ensures Valid() && old(dialed) <= dialed && fresh(dialed - old(dialed))
      ensures Visits(order, Wanted(tablets)) && groups == FixedAll(Build(order))
      ensures forall a | a in Wanted(tablets) && a in old(clients) :: a in clients && clients[a] == old(clients)[a]
      ensures clients.Keys == set a | a in Wanted(tablets) && (a in old(clients) || a in dials)
    {
      hide Visits, Build, FixedAll, ClientsOk, Enumerates;
      var want := WantedTablets(tablets);
      var built: map<string, ShardGroup>;
      built, order := GroupTablets(want);
      var newGroups := FixRanges(built);
      Evict(want);
      Dial(want, dials);
      groups := newGroups;
      orderedKeys := Enumerate(newGroups.Keys);
    }

    function ClientAt(addr: Addr): (c: TabletClient?)
      reads `clients
    {
      if addr in clients then clients[addr] else null
    }

    /** A client of one of the group's tablets. */
    ghost predicate Serves(c: TabletClient?, g: ShardGroup)
      reads `clients
    {
      c != null && (c == ClientAt(g.primary.addr) || exists t :: t in g.replicas && c == ClientAt(t.addr))
    }

    ghost predicate AllReachable(g: ShardGroup)
      reads `clients
    {
      g.primary.addr in clients && forall t | t in g.replicas :: t.addr in clients
    }

    /** Replicas take turns; without any, the primary serves reads. */
    method PickOneForRead(g: ShardGroup) returns (c: TabletClient?)
      modifies `replicaCursor
      ensures c == if g.replicas != [] then ClientAt(g.replicas[old(replicaCursor) % |g.replicas|].addr)
                   else ClientAt(g.primary.addr)
      ensures replicaCursor == old(replicaCursor) + if g.replicas != [] then 1 else 0
      ensures if c == null then !AllReachable(g) else Serves(c, g) && c in clients.Values
    {
      if |g.replicas| > 0 {
        var idx := replicaCursor % |g.replicas|;
        assert g.replicas[idx] in g.replicas;
        replicaCursor := replicaCursor + 1;
        return ClientAt(g.replicas[idx].addr);
      }
      return ClientAt(g.primary.addr);
    }

    method PickOneForWrite(g: ShardGroup) returns (c: TabletClient?)
      ensures c == ClientAt(g.primary.addr)
      ensures if c == null then !AllReachable(g) else Serves(c, g) && c in clients.Values
    {
      return ClientAt(g.primary.addr);
    }

    /** The choice made twice in the source: the primary for writes and transactions, else a read target. */
    method PickOne(g: ShardGroup, toPrimary: bool) returns (c: TabletClient?)
      modifies `replicaCursor
      ensures toPrimary ==> c == ClientAt(g.primary.addr)
      ensures if c == null then !AllReachable(g) else Serves(c, g) && c in clients.Values
    {
      if toPrimary {
        c := PickOneForWrite(g);
      } else {
        c := PickOneForRead(g);
      }
    }

    ghost predicate ServesAny(c: TabletClient)
      reads `clients, `groups
    {
      exists k :: k in groups && Serves(c, groups[k])
    }

    /** A client of a tablet whose group's range holds the key. */
    ghost predicate ServesKey(c: TabletClient, key: int)
      reads `clients, `groups
    {
      exists k :: k in groups && groups[k].start <= key < groups[k].end && Serves(c, groups[k])
    }

    ghost predicate Served(g: ShardGroup, targets: seq<TabletClient>)
      reads `clients
    {
      exists i :: 0 <= i < |targets| && Serves(targets[i], g)
    }

    lemma StillServed(g: ShardGroup, targets: seq<TabletClient>, c: TabletClient)
      requires Served(g, targets) || Serves(c, g)
      ensures Served(g, targets + [c])
    {
      var all := targets + [c];
      assert all[|targets|] == c;
      if i :| 0 <= i < |targets| && Serves(targets[i], g) {
        assert all[i] == targets[i];
      }
    }

    /** `tabletForKeyLocked`: the first group found that contains the key decides, in whatever order the
        map is iterated. */
    method TabletForKey(key: int, toPrimary: bool) returns (c: TabletClient?)
      modifies `replicaCursor
      ensures c != null ==> c in clients.Values && ServesKey(c, key)
      ensures toPrimary ==>
                if c == null then
                  || (forall k | k in groups :: !(groups[k].start <= key < groups[k].end))
                  || exists k :: && k in groups && groups[k].start <= key < groups[k].end
                                 && groups[k].primary.addr !in clients
                else exists k :: && k in groups && groups[k].start <= key < groups[k].end
                                 && ClientAt(groups[k].primary.addr) == c
    {
      var rest := groups.Keys;
      while rest != {}
        invariant rest <= groups.Keys
        invariant forall k | k in groups && k !in rest :: !Contains(groups[k], key)
        decreases |rest|
      {
        var k :| k in rest;
        if Contains(groups[k], key) {
          c := PickOne(groups[k], toPrimary);
          assert c != null ==> Contains(groups[k], key) && Serves(c, groups[k]);
          return;
        }
        rest := rest - {k};
      }
      return null;
    }

    method ScatterResult(toPrimary: bool, write: bool) returns (r: RouteResult)
      requires Valid()
      modifies `replicaCursor
      ensures r.scatter && !r.txControl && r.write == write
      ensures forall c | c in r.targets :: c in clients.Values && ServesAny(c)
      ensures forall k | k in groups && AllReachable(groups[k]) :: Served(groups[k], r.targets)
      ensures toPrimary ==> Addrs(r.targets) == ScatterAddrs(groups, orderedKeys, clients.Keys)
      ensures toPrimary ==> (r.targets == [] <==> forall k | k in groups :: groups[k].primary.addr !in clients)
    {
      hide Serves, AllReachable, Served, ScatterAddrs;
      var all: seq<TabletClient> := [];
      ScatterNone(groups, clients.Keys);
      for i := 0 to |orderedKeys|
        invariant forall c | c in all :: c in clients.Values && ServesAny(c)
        invariant forall j | 0 <= j < i && AllReachable(groups[orderedKeys[j]]) :: Served(groups[orderedKeys[j]], all)
        invariant toPrimary ==> Addrs(all) == ScatterAddrs(groups, orderedKeys[..i], clients.Keys)
      {
        var key := orderedKeys[i];
        ScatterGrows(groups, orderedKeys, i, clients.Keys);
        if key in groups {
          var tc := PickOne(groups[key], toPrimary);
          if tc != null {
            var c: TabletClient := tc;
            AddrsGrow(all, c);
            forall j | 0 <= j <= i && AllReachable(groups[orderedKeys[j]])
              ensures Served(groups[orderedKeys[j]], all + [c])
            {
              StillServed(groups[orderedKeys[j]], all, c);
            }
            all := all + [c];
          }
        }
      }
      assert orderedKeys[..|orderedKeys|] == orderedKeys;
      NoTargetIff(groups, orderedKeys, clients.Keys);
      return RouteResult(all, true, false, write);
    }

    /** `Route`: writes and statements of a transaction go to primaries only. */
    method Route(req: Request, inTransaction: bool) returns (r: RouteResult)
      requires Valid()
      modifies `replicaCursor
      ensures Valid() && forall c | c in r.targets :: c in clients.Values
      ensures r.txControl <==> orderedKeys != [] && req.TxControlStatement?
      ensures orderedKeys == [] || r.txControl ==> r.targets == [] && !r.scatter
      ensures orderedKeys != [] && !r.txControl && !r.scatter ==> |r.targets| == 1
      ensures orderedKeys != [] && req.Unparsed? ==> r.scatter && !r.write
      ensures orderedKeys != [] && req.Parsed? ==> r.write == IsWrite(req.stmt)
      ensures orderedKeys != [] && req.Parsed? && (req.stmt.Insert? || req.stmt.Update? || req.stmt.Delete?) ==>
                r.write && PrimaryRoute(groups, orderedKeys, clients.Keys, vs, req.stmt, Addrs(r.targets), r.scatter)
      ensures req.Parsed? && req.stmt.Select? ==> !r.write
      ensures orderedKeys != [] && req.Parsed? && (inTransaction || IsWrite(req.stmt)) ==>
                PrimaryRoute(groups, orderedKeys, clients.Keys, vs, req.stmt, Addrs(r.targets), r.scatter)
      ensures r.scatter && (inTransaction || r.write) ==>
                (r.targets == [] <==> forall k | k in groups :: groups[k].primary.addr !in clients)
      ensures r.scatter ==> forall c | c in r.targets :: ServesAny(c)
      ensures r.scatter ==> forall k | k in groups && AllReachable(groups[k]) :: Served(groups[k], r.targets)
      ensures !r.scatter && r.targets != [] ==>
                req.Parsed? && ShardKey(vs, req.stmt).Some? && ServesKey(r.targets[0], ShardKey(vs, req.stmt).value)
    {
      hide Enumerates, ScatterAddrs, Serves, AllReachable, Served, ServesAny;
      if |orderedKeys| == 0 {
        return RouteResult([], false, false, false);
      }
      match req
      case Unparsed =>
        r := ScatterResult(inTransaction, false);
      case TxControlStatement =>
        return RouteResult([], false, true, false);
      case Parsed(stmt) =>
        var write := IsWrite(stmt);
        var toPrimary := inTransaction || write;
        var table := TableName(stmt);
        if table.Some? && table.value != "" && table.value in vs {
          var text := EqualityValue(stmt, vs[table.value]);
          if text.Some? && ParseInt(text.value).Some? {
            var target := TabletForKey(ParseInt(text.value).value, toPrimary);
            if target != null {
              return RouteResult([target], false, false, write);
            }
          }
        }
        r := ScatterResult(toPrimary, write);
    }
  }

  ghost predicate Enumerates(keys: seq<string>, s: set<string>) {
    && (forall k :: k in keys <==> k in s)
    && (forall i, j | 0 <= i < j < |keys| :: keys[i] != keys[j])
  }

  method Enumerate(s: set<string>) returns (keys: seq<string>)
    ensures Enumerates(keys, s)
  {
    keys := [];
    var rest := s;
    while rest != {}
      invariant rest <= s && Enumerates(keys, s - rest)
      decreases |rest|
    {
      var k :| k in rest;
      keys := keys + [k];
      rest := rest - {k};
    }
  }

  lemma AddrsGrow(targets: seq<TabletClient>, c: TabletClient)
    ensures Addrs(targets + [c]) == Addrs(targets) + [c.addr]
  {
  }

  lemma ScatterNone(groups: map<string, ShardGroup>, reachable: set<Addr>)
    ensures ScatterAddrs(groups, [], reachable) == []
  {
  }

  lemma ScatterGrows(groups: map<string, ShardGroup>, keys: seq<string>, i: nat, reachable: set<Addr>)
    requires i < |keys|
    ensures ScatterAddrs(groups, keys[..i + 1], reachable)
         == ScatterAddrs(groups, keys[..i], reachable)
            + if keys[i] in groups && groups[keys[i]].primary.addr in reachable
              then [groups[keys[i]].primary.addr] else []
  {
    assert keys[..i + 1][..i] == keys[..i];
  }

  lemma NoneVisited(want: map<Addr, TabletInfo>)
    ensures Visits([], want - want.Keys)
  {
  }

  lemma VisitOne(order: seq<TabletInfo>, want: map<Addr, TabletInfo>, rest: set<Addr>, a: Addr)
    requires Visits(order, want - rest) && a in rest && a in want && want[a].addr == a
    ensures Visits(order + [want[a]], want - (rest - {a})) && Build(order + [want[a]]) == Visit(Build(order), want[a])
  {
    assert (order + [want[a]])[..|order|] == order;
    assert forall b | b in want - (rest - {a}) :: b == a || b in want - rest;
  }
}
