/** How the router groups tablets into shards, and when that does not depend on the order in which it
    visits them. */
module Shards {
  import opened Lists

  type Addr = string

  datatype TabletInfo = TabletInfo(
    keyspace: string, shard: string, kind: string, addr: Addr, start: int, end: int)

  datatype ShardGroup = ShardGroup(
    keyspace: string, shard: string, start: int, end: int, primary: TabletInfo, replicas: seq<TabletInfo>)

  /** The zero value of the record: a group without a primary holds it. */
  const NO_TABLET := TabletInfo("", "", "", "", 0, 0)

  function GroupKey(t: TabletInfo): (k: string) {
    t.keyspace + "/" + t.shard
  }

  predicate IsPrimary(t: TabletInfo) {
    t.kind == "PRIMARY"
  }

  predicate Contains(g: ShardGroup, key: int) {
    g.start <= key < g.end
  }

  /** No key is in two ranges. */
  ghost predicate NoOverlap(groups: map<string, ShardGroup>) {
    forall j, k, key | j in groups && k in groups && Contains(groups[j], key) && Contains(groups[k], key) :: j == k
  }

  /** One of the ranges is empty, or one ends where the other begins or before. */
  predicate Apart(g: ShardGroup, h: ShardGroup) {
    g.end <= g.start || h.end <= h.start || g.end <= h.start || h.end <= g.start
  }

  lemma NoOverlapIff(groups: map<string, ShardGroup>)
    ensures NoOverlap(groups) <==> forall j, k | j in groups && k in groups && j != k :: Apart(groups[j], groups[k])
  {
    if NoOverlap(groups) {
      forall j, k | j in groups && k in groups && j != k ensures Apart(groups[j], groups[k]) {
        var key := if groups[j].start < groups[k].start then groups[k].start else groups[j].start;
        assert !Contains(groups[j], key) || !Contains(groups[k], key);
      }
    }
  }

  /** The ranges of `ks` follow each other from `bounds[0]` up to the last bound, and there are no other groups. */
  ghost predicate Tiles(groups: map<string, ShardGroup>, ks: seq<string>, bounds: seq<int>) {
    && |bounds| == |ks| + 1
    && (forall i | 0 <= i < |ks| ::
          && ks[i] in groups && bounds[i] <= bounds[i + 1]
          && groups[ks[i]].start == bounds[i] && groups[ks[i]].end == bounds[i + 1])
    && (forall k | k in groups :: k in ks)
    && forall i, j | 0 <= i < j < |ks| :: ks[i] != ks[j]
  }

  lemma {:induction false} BoundsGrow(bounds: seq<int>, i: nat, j: nat)
    requires i <= j < |bounds| && forall k | 0 <= k < |bounds| - 1 :: bounds[k] <= bounds[k + 1]
    ensures bounds[i] <= bounds[j]
    decreases j - i
  {
    if i < j {
      BoundsGrow(bounds, i, j - 1);
    }
  }

  /** In a tiling no key has two owners. */
  lemma TilesApart(groups: map<string, ShardGroup>, ks: seq<string>, bounds: seq<int>)
    requires Tiles(groups, ks, bounds)
    ensures NoOverlap(groups)
  {
    forall j, k | j in groups && k in groups && j != k ensures Apart(groups[j], groups[k]) {
      var x :| 0 <= x < |ks| && ks[x] == j;
      var y :| 0 <= y < |ks| && ks[y] == k;
      if x < y {
        BoundsGrow(bounds, x + 1, y);
      } else {
        BoundsGrow(bounds, y + 1, x);
      }
    }
    NoOverlapIff(groups);
  }

  /** In a tiling exactly the keys between the outer bounds have an owner. */
  lemma TileOwner(groups: map<string, ShardGroup>, ks: seq<string>, bounds: seq<int>, key: int)
    requires Tiles(groups, ks, bounds)
    ensures bounds[0] <= key < bounds[|ks|] <==> exists k :: k in groups && Contains(groups[k], key)
  {
    if bounds[0] <= key < bounds[|ks|] {
      var i := FindTile(bounds, key);
      assert ks[i] in groups && Contains(groups[ks[i]], key);
    }
    if k :| k in groups && Contains(groups[k], key) {
      var i :| 0 <= i < |ks| && ks[i] == k;
      BoundsGrow(bounds, 0, i);
      BoundsGrow(bounds, i + 1, |ks|);
    }
  }

  lemma FindTile(bounds: seq<int>, key: int) returns (i: nat)
    requires |bounds| > 0 && bounds[0] <= key < bounds[|bounds| - 1]
    ensures i + 1 < |bounds| && bounds[i] <= key < bounds[i + 1]
  {
    i := 0;
    while bounds[i + 1] <= key
      invariant i + 1 < |bounds| && bounds[i] <= key
      decreases |bounds| - i
    {
      i := i + 1;
    }
  }

  /** Keyspaces without a slash: tablets share a group exactly if they share keyspace and shard. */
  lemma GroupKeyIff(t: TabletInfo, u: TabletInfo)
    requires '/' !in t.keyspace && '/' !in u.keyspace
    ensures GroupKey(t) == GroupKey(u) <==> t.keyspace == u.keyspace && t.shard == u.shard
  {
    var s := GroupKey(t);
    if s == GroupKey(u) {
      assert s[|t.keyspace|] == '/' && s[|u.keyspace|] == '/';
      assert forall i | 0 <= i < |t.keyspace| :: s[i] == t.keyspace[i];
      assert forall i | 0 <= i < |u.keyspace| :: s[i] == u.keyspace[i];
      assert |t.keyspace| == |u.keyspace|;
      assert t.keyspace == s[..|t.keyspace|] && u.keyspace == s[..|u.keyspace|];
      assert t.shard == s[|t.keyspace| + 1..] && u.shard == s[|u.keyspace| + 1..];
    }
  }

  /** With one, different shards can end up in one group. */
  lemma GroupKeysCollide()
    ensures var t, u := TabletInfo("a/b", "c", "PRIMARY", "x", 0, 1), TabletInfo("a", "b/c", "PRIMARY", "y", 1, 2);
            GroupKey(t) == GroupKey(u) && t.keyspace != u.keyspace && t.shard != u.shard
  {
    assert "a/b" + "/" + "c" == "a/b/c" == "a" + "/" + "b/c";
    assert "a/b"[1] == '/';
  }

  // ----- what the visiting loop computes -----

  function Visit(groups: map<string, ShardGroup>, t: TabletInfo): (groups': map<string, ShardGroup>) {
    var k := GroupKey(t);
    var g := if k in groups then groups[k] else ShardGroup(t.keyspace, t.shard, t.start, t.end, NO_TABLET, []);
    groups[k := if IsPrimary(t) then g.(primary := t) else g.(replicas := g.replicas + [t])]
  }

  function Build(order: seq<TabletInfo>): (groups: map<string, ShardGroup>) {
    if order == [] then map[] else Visit(Build(order[..|order| - 1]), order[|order| - 1])
  }

  /** A range of 0/0 is taken over from the primary, or without one from the first replica. */
  function Fixed(g: ShardGroup): (g': ShardGroup) {
    if g.start != 0 || g.end != 0 then g
    else if g.primary.addr != "" then g.(start := g.primary.start, end := g.primary.end)
    else if |g.replicas| > 0 then g.(start := g.replicas[0].start, end := g.replicas[0].end)
    else g
  }

  // ----- the same, group by group -----

  function Members(order: seq<TabletInfo>, k: string): (ms: seq<TabletInfo>)
    ensures forall t | t in ms :: GroupKey(t) == k && t in order
  {
    if order == [] then []
    else
      var init, last := Members(order[..|order| - 1], k), order[|order| - 1];
      if GroupKey(last) == k then init + [last] else init
  }

  function LastPrimary(ms: seq<TabletInfo>): (t: TabletInfo) {
    if ms == [] then NO_TABLET
    else if IsPrimary(ms[|ms| - 1]) then ms[|ms| - 1]
    else LastPrimary(ms[..|ms| - 1])
  }

  function Replicas(ms: seq<TabletInfo>): (rs: seq<TabletInfo>) {
    if ms == [] then []
    else
      var init, last := Replicas(ms[..|ms| - 1]), ms[|ms| - 1];
      if IsPrimary(last) then init else init + [last]
  }

  function GroupOf(ms: seq<TabletInfo>): (g: ShardGroup)
    requires ms != []
  {
    ShardGroup(ms[0].keyspace, ms[0].shard, ms[0].start, ms[0].end, LastPrimary(ms), Replicas(ms))
  }

  lemma GroupGrows(ms: seq<TabletInfo>, t: TabletInfo)
    ensures LastPrimary(ms + [t]) == if IsPrimary(t) then t else LastPrimary(ms)
    ensures Replicas(ms + [t]) == if IsPrimary(t) then Replicas(ms) else Replicas(ms) + [t]
    ensures (ms + [t])[0] == if ms == [] then t else ms[0]
  {
    assert (ms + [t])[..|ms|] == ms;
  }

  /** Each group is determined by the tablets of its key, in the order they were visited. */
  lemma {:induction false} BuildIs(order: seq<TabletInfo>)
    ensures forall k :: k in Build(order) <==> Members(order, k) != []
    ensures forall k | k in Build(order) :: Build(order)[k] == GroupOf(Members(order, k))
    decreases |order|
  {
    if order != [] {
      var init, t := order[..|order| - 1], order[|order| - 1];
      BuildIs(init);
      forall k
        ensures k in Build(order) <==> Members(order, k) != []
        ensures k in Build(order) ==> Build(order)[k] == GroupOf(Members(order, k))
      {
        if GroupKey(t) == k {
          assert Members(order, k) == Members(init, k) + [t];
          GroupGrows(Members(init, k), t);
        }
      }
    }
  }

  lemma {:induction false} MembersArrangement(s: seq<TabletInfo>, k: string, t: TabletInfo)
    ensures multiset(Members(s, k))[t] == if GroupKey(t) == k then multiset(s)[t] else 0
    decreases |s|
  {
    if s != [] {
      MembersArrangement(s[..|s| - 1], k, t);
      assert s == s[..|s| - 1] + [s[|s| - 1]];
    }
  }

  lemma MembersSame(s: seq<TabletInfo>, t: seq<TabletInfo>, k: string)
    requires multiset(s) == multiset(t)
    ensures multiset(Members(s, k)) == multiset(Members(t, k))
  {
    forall x ensures multiset(Members(s, k))[x] == multiset(Members(t, k))[x] {
      MembersArrangement(s, k, x);
      MembersArrangement(t, k, x);
    }
  }

  // ----- when the order of visiting does not matter -----

  predicate SameRange(t: TabletInfo, u: TabletInfo) {
    t.start == u.start && t.end == u.end
  }

  predicate ZeroRange(t: TabletInfo) {
    t.start == 0 && t.end == 0
  }

  /** The tablets of a shard agree: one keyspace and shard name, at most one PRIMARY, and the others
      carry its range or 0/0; without a PRIMARY all carry the same range. */
  ghost predicate Consistent(ms: seq<TabletInfo>) {
    && (forall t, u | t in ms && u in ms :: t.keyspace == u.keyspace && t.shard == u.shard)
    && (forall t, u | t in ms && u in ms && IsPrimary(t) && IsPrimary(u) :: t == u)
    && (forall t, p | t in ms && p in ms && IsPrimary(p) :: SameRange(t, p) || ZeroRange(t))
    && ((forall p | p in ms :: !IsPrimary(p)) ==> forall t, u | t in ms && u in ms :: SameRange(t, u))
  }

  /** Equal up to the order of the replicas. */
  ghost predicate SameGroup(g: ShardGroup, h: ShardGroup) {
    && g.keyspace == h.keyspace && g.shard == h.shard && g.start == h.start && g.end == h.end
    && g.primary == h.primary && multiset(g.replicas) == multiset(h.replicas)
  }

  ghost predicate Addressed(ms: seq<TabletInfo>) {
    && (forall t | t in ms :: t.addr != "")
    && (forall i, j | 0 <= i < j < |ms| :: ms[i] != ms[j])
  }

  lemma {:induction false} LastPrimaryFound(ms: seq<TabletInfo>)
    ensures if exists p :: p in ms && IsPrimary(p) then LastPrimary(ms) in ms && IsPrimary(LastPrimary(ms))
            else LastPrimary(ms) == NO_TABLET
    decreases |ms|
  {
    if ms != [] {
      var init, last := ms[..|ms| - 1], ms[|ms| - 1];
      assert ms == init + [last];
      LastPrimaryFound(init);
    }
  }

  lemma {:induction false} ReplicasCount(ms: seq<TabletInfo>, x: TabletInfo)
    ensures multiset(Replicas(ms))[x] == if IsPrimary(x) then 0 else multiset(ms)[x]
    decreases |ms|
  {
    if ms != [] {
      ReplicasCount(ms[..|ms| - 1], x);
      assert ms == ms[..|ms| - 1] + [ms[|ms| - 1]];
    }
  }

  /** Who plays which role: a tablet of a group is a replica exactly if it is not declared "PRIMARY", and the group has
      a primary, declared so, exactly if one of its tablets is. */
  lemma Roles(order: seq<TabletInfo>, k: string)
    requires k in FixedAll(Build(order))
    ensures var g := FixedAll(Build(order))[k];
            && (forall t :: t in g.replicas <==> t in order && GroupKey(t) == k && t.kind != "PRIMARY")
            && (if exists t :: t in order && GroupKey(t) == k && t.kind == "PRIMARY"
                then g.primary in order && GroupKey(g.primary) == k && g.primary.kind == "PRIMARY"
                else g.primary == NO_TABLET)
  {
    BuildIs(order);
    var ms := Members(order, k);
    LastPrimaryFound(ms);
    hide Build, Members, Replicas, LastPrimary, GroupKey;
    forall t
      ensures t in ms <==> t in order && GroupKey(t) == k
      ensures t in Replicas(ms) <==> t in ms && t.kind != "PRIMARY"
    {
      MemberRole(order, k, t);
    }
  }

  lemma MemberRole(order: seq<TabletInfo>, k: string, t: TabletInfo)
    ensures t in Members(order, k) <==> t in order && GroupKey(t) == k
    ensures t in Replicas(Members(order, k)) <==> t in Members(order, k) && t.kind != "PRIMARY"
  {
    hide Members, Replicas, GroupKey;
    var ms := Members(order, k);
    MembersArrangement(order, k, t);
    ReplicasCount(ms, t);
    assert t in ms <==> multiset(ms)[t] > 0;
    assert t in order <==> multiset(order)[t] > 0;
    assert t in Replicas(ms) <==> multiset(Replicas(ms))[t] > 0;
  }

  lemma {:induction false} AllReplicas(ms: seq<TabletInfo>)
    requires forall t | t in ms :: !IsPrimary(t)
    ensures Replicas(ms) == ms
    decreases |ms|
  {
    if ms != [] {
      AllReplicas(ms[..|ms| - 1]);
    }
  }

  /** The range a group ends up with: that of the first tablet visited if it is not 0/0, else that of
      the primary if there is one. */
  lemma FinalRange(ms: seq<TabletInfo>)
    requires ms != [] && Addressed(ms)
    ensures var g := Fixed(GroupOf(ms));
            if !ZeroRange(ms[0]) then g.start == ms[0].start && g.end == ms[0].end
            else if exists p :: p in ms && IsPrimary(p) then
              g.start == LastPrimary(ms).start && g.end == LastPrimary(ms).end
            else g.start == 0 && g.end == 0
    ensures Fixed(GroupOf(ms)).primary == LastPrimary(ms) && Fixed(GroupOf(ms)).replicas == Replicas(ms)
    ensures Fixed(GroupOf(ms)).keyspace == ms[0].keyspace && Fixed(GroupOf(ms)).shard == ms[0].shard
  {
    LastPrimaryFound(ms);
    if !exists p :: p in ms && IsPrimary(p) {
      assert forall t | t in ms :: !IsPrimary(t);
      AllReplicas(ms);
    }
  }

  ghost predicate HasPrimary(ms: seq<TabletInfo>) {
    exists p :: p in ms && IsPrimary(p)
  }

  /** What consistency says about two tablets. */
  lemma Agree(ms: seq<TabletInfo>, t: TabletInfo, u: TabletInfo)
    requires Consistent(ms) && t in ms && u in ms
    ensures t.keyspace == u.keyspace && t.shard == u.shard
    ensures IsPrimary(u) ==> SameRange(t, u) || ZeroRange(t)
    ensures !HasPrimary(ms) ==> SameRange(t, u)
  {
  }

  /** The range of a consistent group is its primary's, or without one that of any member. */
  lemma ConsistentRange(ms: seq<TabletInfo>)
    requires ms != [] && Addressed(ms) && Consistent(ms)
    ensures var g := Fixed(GroupOf(ms)); var t := if HasPrimary(ms) then LastPrimary(ms) else ms[0];
            g.start == t.start && g.end == t.end
  {
    hide Consistent, Replicas, LastPrimary, Fixed, GroupOf;
    FinalRange(ms);
    if HasPrimary(ms) {
      LastPrimaryFound(ms);
      assert ms[0] in ms;
      Agree(ms, ms[0], LastPrimary(ms));
    }
  }

  lemma ConsistentSame(s: seq<TabletInfo>, t: seq<TabletInfo>)
    requires Consistent(s) && forall x :: x in s <==> x in t
    ensures Consistent(t) && (HasPrimary(s) <==> HasPrimary(t))
  {
  }

  /** Consistent tablets give the same group in every order. */
  lemma ConsistentIndependent(s: seq<TabletInfo>, t: seq<TabletInfo>)
    requires s != [] && multiset(s) == multiset(t) && Addressed(s) && Addressed(t) && Consistent(s)
    ensures t != [] && SameGroup(Fixed(GroupOf(s)), Fixed(GroupOf(t)))
  {
    SameElements(s, t);
    SamePrimary(s, t);
    SameReplicas(s, t);
    hide Consistent, Replicas, LastPrimary, GroupOf, Fixed;
    ConsistentSame(s, t);
    ConsistentRange(s);
    ConsistentRange(t);
    FinalRange(s);
    FinalRange(t);
    assert s[0] in s && t[0] in s;
    Agree(s, s[0], t[0]);
  }

  lemma SamePrimary(s: seq<TabletInfo>, t: seq<TabletInfo>)
    requires multiset(s) == multiset(t)
    requires forall p, q | p in s && q in s && IsPrimary(p) && IsPrimary(q) :: p == q
    ensures LastPrimary(s) == LastPrimary(t)
  {
    hide LastPrimary;
    SameElements(s, t);
    LastPrimaryFound(s);
    LastPrimaryFound(t);
    assert (exists p :: p in s && IsPrimary(p)) <==> (exists p :: p in t && IsPrimary(p));
  }

  lemma SameReplicas(s: seq<TabletInfo>, t: seq<TabletInfo>)
    requires multiset(s) == multiset(t)
    ensures multiset(Replicas(s)) == multiset(Replicas(t))
  {
    hide Replicas;
    forall x ensures multiset(Replicas(s))[x] == multiset(Replicas(t))[x] {
      ReplicasCount(s, x);
      ReplicasCount(t, x);
    }
  }

  function MoveFront(ms: seq<TabletInfo>, i: nat): (r: seq<TabletInfo>)
    requires i < |ms|
  {
    [ms[i]] + ms[..i] + ms[i + 1..]
  }

  function MoveBack(ms: seq<TabletInfo>, i: nat): (r: seq<TabletInfo>)
    requires i < |ms|
  {
    ms[..i] + ms[i + 1..] + [ms[i]]
  }

  lemma Moved(ms: seq<TabletInfo>, i: nat)
    requires i < |ms| && Addressed(ms)
    ensures multiset(MoveFront(ms, i)) == multiset(ms) && Addressed(MoveFront(ms, i)) && MoveFront(ms, i)[0] == ms[i]
    ensures multiset(MoveBack(ms, i)) == multiset(ms) && Addressed(MoveBack(ms, i))
    ensures IsPrimary(ms[i]) ==> LastPrimary(MoveBack(ms, i)) == ms[i]
  {
    hide Addressed;
    assert ms == ms[..i] + [ms[i]] + ms[i + 1..];
    assert multiset(ms) == multiset(ms[..i]) + multiset{ms[i]} + multiset(ms[i + 1..]);
    assert multiset(MoveFront(ms, i)) == multiset(ms);
    assert multiset(MoveBack(ms, i)) == multiset(ms);
    Rearranged(MoveFront(ms, i), ms);
    Rearranged(MoveBack(ms, i), ms);
    assert MoveBack(ms, i)[|ms| - 1] == ms[i];
  }

  ghost predicate OrderIndependent(ms: seq<TabletInfo>)
    requires ms != []
  {
    forall s, t | s != [] && t != [] && multiset(s) == multiset(ms) && multiset(t) == multiset(ms) ::
      SameGroup(Fixed(GroupOf(s)), Fixed(GroupOf(t)))
  }

  lemma Rearranged(s: seq<TabletInfo>, ms: seq<TabletInfo>)
    requires multiset(s) == multiset(ms) && Addressed(ms)
    ensures Addressed(s)
  {
    SameElements(s, ms);
    forall i, j | 0 <= i < j < |s| ensures s[i] != s[j] {
      if s[i] == s[j] {
        assert s == s[..j] + [s[j]] + s[j + 1..];
        assert s[..j][i] == s[i] && s[i] in multiset(s[..j]);
        assert multiset(s)[s[i]] >= 2;
        OnceOrNever(ms, s[i]);
      }
    }
  }

  /** Two tablets that disagree make two orders disagree. */
  lemma FrontsAgree(ms: seq<TabletInfo>, i: nat, j: nat)
    requires i < |ms| && j < |ms| && Addressed(ms) && OrderIndependent(ms)
    ensures ms[i].keyspace == ms[j].keyspace && ms[i].shard == ms[j].shard
    ensures IsPrimary(ms[i]) && IsPrimary(ms[j]) ==> ms[i] == ms[j]
    ensures IsPrimary(ms[j]) && (forall p | p in ms && IsPrimary(p) :: p == ms[j]) ==>
              SameRange(ms[i], ms[j]) || ZeroRange(ms[i])
    ensures (forall p | p in ms :: !IsPrimary(p)) ==> SameRange(ms[i], ms[j])
  {
    Moved(ms, i);
    Moved(ms, j);
    var s, t := MoveFront(ms, i), MoveFront(ms, j);
    var s', t' := MoveBack(ms, i), MoveBack(ms, j);
    SameElements(s, ms);
    SameElements(t, ms);
    FinalRange(s);
    FinalRange(t);
    FinalRange(s');
    FinalRange(t');
    LastPrimaryFound(t);
    LastPrimaryFound(s);
    assert SameGroup(Fixed(GroupOf(s)), Fixed(GroupOf(t)));
    assert SameGroup(Fixed(GroupOf(s')), Fixed(GroupOf(t')));
  }

  lemma IndependentIsConsistent(ms: seq<TabletInfo>)
    requires ms != [] && Addressed(ms) && OrderIndependent(ms)
    ensures Consistent(ms)
  {
    hide OrderIndependent;
    forall t, u | t in ms && u in ms
      ensures t.keyspace == u.keyspace && t.shard == u.shard
      ensures IsPrimary(t) && IsPrimary(u) ==> t == u
      ensures (forall p | p in ms :: !IsPrimary(p)) ==> SameRange(t, u)
    {
      var i :| 0 <= i < |ms| && ms[i] == t;
      var j :| 0 <= j < |ms| && ms[j] == u;
      FrontsAgree(ms, i, j);
    }
    forall t, p | t in ms && p in ms && IsPrimary(p) ensures SameRange(t, p) || ZeroRange(t) {
      var i :| 0 <= i < |ms| && ms[i] == t;
      var j :| 0 <= j < |ms| && ms[j] == p;
      FrontsAgree(ms, i, j);
    }
  }

  /** The group a shard's tablets form is the same for every order of visiting exactly when the tablets
      are consistent. */
  lemma OrderIndependentIffConsistent(ms: seq<TabletInfo>)
    requires ms != [] && Addressed(ms)
    ensures OrderIndependent(ms) <==> Consistent(ms)
  {
    hide Consistent, Addressed;
    if Consistent(ms) {
      forall s, t | s != [] && t != [] && multiset(s) == multiset(ms) && multiset(t) == multiset(ms)
        ensures SameGroup(Fixed(GroupOf(s)), Fixed(GroupOf(t)))
      {
        Rearranged(s, ms);
        Rearranged(t, ms);
        SameElements(ms, s);
        ConsistentSame(ms, s);
        ConsistentIndependent(s, t);
      }
    }
    if OrderIndependent(ms) {
      IndependentIsConsistent(ms);
    }
  }

  // ----- all shards together -----

  /** Every tablet of `want` once, in some order. */
  ghost predicate Visits(order: seq<TabletInfo>, want: map<Addr, TabletInfo>) {
    && (forall t | t in order :: t.addr in want && want[t.addr] == t)
    && (forall a | a in want :: want[a] in order)
    && (forall i, j | 0 <= i < j < |order| :: order[i] != order[j])
  }

  function FixedAll(groups: map<string, ShardGroup>): (groups': map<string, ShardGroup>) {
    map k | k in groups :: Fixed(groups[k])
  }

  ghost predicate AllConsistent(want: map<Addr, TabletInfo>) {
    && "" !in want
    && (forall a | a in want :: want[a].addr == a)
    && forall a, b | a in want && b in want && GroupKey(want[a]) == GroupKey(want[b]) ::
         && want[a].keyspace == want[b].keyspace && want[a].shard == want[b].shard
         && (IsPrimary(want[a]) && IsPrimary(want[b]) ==> a == b)
         && (IsPrimary(want[b]) ==> SameRange(want[a], want[b]) || ZeroRange(want[a]))
         && (SameRange(want[a], want[b]) || HasPrimaryOf(want, GroupKey(want[a])))
  }

  ghost predicate HasPrimaryOf(want: map<Addr, TabletInfo>, k: string) {
    exists a :: a in want && GroupKey(want[a]) == k && IsPrimary(want[a])
  }

  lemma VisitsSame(s: seq<TabletInfo>, t: seq<TabletInfo>, want: map<Addr, TabletInfo>)
    requires Visits(s, want) && Visits(t, want)
    ensures multiset(s) == multiset(t)
  {
    forall x ensures multiset(s)[x] == multiset(t)[x] {
      OnceOrNever(s, x);
      OnceOrNever(t, x);
    }
  }

  lemma {:induction false} InMembers(order: seq<TabletInfo>, k: string, t: TabletInfo)
    ensures t in Members(order, k) <==> t in order && GroupKey(t) == k
    decreases |order|
  {
    if order != [] {
      var init, last := order[..|order| - 1], order[|order| - 1];
      assert order == init + [last];
      InMembers(init, k, t);
    }
  }

  lemma MembersConsistent(order: seq<TabletInfo>, want: map<Addr, TabletInfo>, k: string)
    requires Visits(order, want) && AllConsistent(want)
    ensures Addressed(Members(order, k)) && Consistent(Members(order, k))
  {
    var ms := Members(order, k);
    forall t ensures t in ms <==> t in order && GroupKey(t) == k { InMembers(order, k, t); }
    DistinctMembers(order, k);
    forall t, u | t in ms && u in ms
      ensures t.keyspace == u.keyspace && t.shard == u.shard && (IsPrimary(t) && IsPrimary(u) ==> t == u)
      ensures IsPrimary(u) ==> SameRange(t, u) || ZeroRange(t)
      ensures (forall p | p in ms :: !IsPrimary(p)) ==> SameRange(t, u)
    {
      assert want[t.addr] == t && want[u.addr] == u;
      if HasPrimaryOf(want, k) {
        var a :| a in want && GroupKey(want[a]) == k && IsPrimary(want[a]);
        assert want[a] in ms;
      }
    }
  }

  lemma {:induction false} DistinctMembers(order: seq<TabletInfo>, k: string)
    requires forall i, j | 0 <= i < j < |order| :: order[i] != order[j]
    ensures forall i, j | 0 <= i < j < |Members(order, k)| :: Members(order, k)[i] != Members(order, k)[j]
    decreases |order|
  {
    if order != [] {
      var init, last := order[..|order| - 1], order[|order| - 1];
      assert order == init + [last];
      DistinctMembers(init, k);
      InMembers(init, k, last);
      assert last !in init;
    }
  }

  /** Whatever order the maps are iterated in, consistent tablets yield the same groups: the same keys,
      names, ranges and primaries, and the same replicas. */
  lemma SyncIndependentOfOrder(s: seq<TabletInfo>, t: seq<TabletInfo>, want: map<Addr, TabletInfo>)
    requires Visits(s, want) && Visits(t, want) && AllConsistent(want)
    ensures FixedAll(Build(s)).Keys == FixedAll(Build(t)).Keys
    ensures forall k | k in FixedAll(Build(s)) :: SameGroup(FixedAll(Build(s))[k], FixedAll(Build(t))[k])
  {
    hide Visits, AllConsistent, Fixed, SameGroup;
    VisitsSame(s, t, want);
    BuildIs(s);
    BuildIs(t);
    forall k
      ensures k in Build(s) <==> k in Build(t)
      ensures k in Build(s) ==> SameGroup(Fixed(Build(s)[k]), Fixed(Build(t)[k]))
    {
      MembersSame(s, t, k);
      SameElements(Members(s, k), Members(t, k));
      if k in Build(s) {
        MembersConsistent(s, want, k);
        MembersConsistent(t, want, k);
        ConsistentIndependent(Members(s, k), Members(t, k));
      }
    }
  }

  /** Each tablet has exactly one role, in exactly one group. */
  lemma OneRole(order: seq<TabletInfo>, want: map<Addr, TabletInfo>, a: Addr, k: string)
    requires Visits(order, want) && AllConsistent(want) && a in want && k in FixedAll(Build(order))
    ensures var g := FixedAll(Build(order))[k]; var t := want[a];
            && (g.primary == t <==> k == GroupKey(t) && IsPrimary(t))
            && (t in g.replicas <==> k == GroupKey(t) && !IsPrimary(t))
  {
    BuildIs(order);
    var ms, t := Members(order, k), want[a];
    MembersConsistent(order, want, k);
    InMembers(order, k, t);
    FinalRange(ms);
    LastPrimaryFound(ms);
    ReplicasCount(ms, t);
    assert t in Replicas(ms) <==> multiset(Replicas(ms))[t] > 0;
    assert t in ms <==> multiset(ms)[t] > 0;
    assert t.addr == a != "";
  }
}
