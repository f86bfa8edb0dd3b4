/** A SELECT from end to end: routed to the primary that owns its key or scattered over all primaries, its result
    is an answer over the whole table. */
module Select {
  import opened Text
  import opened Cells
  import opened Lists
  import opened Sql
  import opened Shards
  import opened Router
  import opened Placement
  import opened Scatter

  /** The rows of each target. */
  ghost function ShardRows(data: Data, addrs: seq<Addr>): (shards: seq<seq<Record>>)
    ensures |shards| == |addrs| && forall i | 0 <= i < |addrs| :: shards[i] == RowsAt(data, addrs[i])
  {
    seq(|addrs|, i requires 0 <= i < |addrs| => RowsAt(data, addrs[i]))
  }

  lemma {:induction false} TableIsFlatten(data: Data, addrs: seq<Addr>)
    ensures Table(data, addrs) == Flatten(ShardRows(data, addrs))
    decreases |addrs|
  {
    if addrs != [] {
      var n := |addrs| - 1;
      TableIsFlatten(data, addrs[..n]);
      assert ShardRows(data, addrs)[..n] == ShardRows(data, addrs[..n]);
    }
  }

  /** Whether an output is an answer depends on the matching records only. */
  lemma SameMatchesSameAnswers(q: Query, r: seq<Record>, s: seq<Record>, out: seq<Row>)
    requires Filter(q.where, r) == Filter(q.where, s)
    ensures IsAnswer(q, r, out) <==> IsAnswer(q, s, out)
  {
    assert ResultRows(q, r) == ResultRows(q, s);
    if keys, arr :| Arranged(q, r, keys, arr) && out == Slice(arr, OffsetOf(q), ValueOf(q.limit)) {
      assert Arranged(q, s, keys, arr);
    }
    if keys, arr :| Arranged(q, s, keys, arr) && out == Slice(arr, OffsetOf(q), ValueOf(q.limit)) {
      assert Arranged(q, r, keys, arr);
    }
  }

  /** What the owning shard answers is exactly what a node holding the whole table could answer. */
  lemma OwnerAnswers(groups: map<string, ShardGroup>, keys: seq<string>, reachable: set<Addr>, vs: map<string, string>,
                     q: Query, addrs: seq<Addr>, data: Data, out: seq<Row>)
    requires Topology(groups, keys) && Filters(Statement.Select(q))
    requires PrimaryRoute(groups, keys, reachable, vs, Statement.Select(q), addrs, false)
    requires q.table in vs && Placed(data, groups, vs[q.table])
    ensures |addrs| == 1
    ensures IsAnswer(q, RowsAt(data, addrs[0]), out) <==> IsAnswer(q, Table(data, Primaries(groups, keys)), out)
  {
    RoutedSelectComplete(groups, keys, reachable, vs, q, addrs, false, data);
    hide Topology, Placed, IsAnswer;
    assert addrs == [addrs[0]];
    CollectGrows(q.where, data, [], addrs[0]);
    assert Collect(q.where, data, []) == [];
    assert [] + addrs == addrs;
    SameMatchesSameAnswers(q, RowsAt(data, addrs[0]), Table(data, Primaries(groups, keys)), out);
  }

  /** A SELECT of a transaction at the gate. A single target answers the query as it is; otherwise the targets answer
      the stripped query and the gate merges. The first is always right, the second in the domain of the merge. */
  method SelectInTransaction(q: Query, scatter: bool, answers: seq<seq<Row>>,
                             ghost groups: map<string, ShardGroup>, ghost keys: seq<string>, ghost reachable: set<Addr>,
                             ghost vs: map<string, string>, ghost addrs: seq<Addr>, ghost data: Data)
    returns (r: MergeResult)
    requires Topology(groups, keys) && Filters(Statement.Select(q))
    requires PrimaryRoute(groups, keys, reachable, vs, Statement.Select(q), addrs, scatter)
    requires q.table in vs && Placed(data, groups, vs[q.table]) && (scatter ==> AllReachable(groups, reachable))
    requires |answers| == |addrs| && IsInt64(|Flatten(answers)|)
    requires forall i | 0 <= i < |addrs| ::
               IsAnswer(if scatter then ShardQuery(q) else q, RowsAt(data, addrs[i]), answers[i])
    ensures !scatter ==> r.Merged? && IsAnswer(q, Table(data, Primaries(groups, keys)), r.rows)
    ensures scatter && InDomain(q, Table(data, Primaries(groups, keys))) ==>
              IsRight(q, Table(data, Primaries(groups, keys)), r)
  {
    hide IsAnswer, InDomain, IsRight, Topology, Placed;
    if !scatter {
      OneTarget(groups, keys, reachable, vs, q, addrs);
    }
    if |answers| == 1 && !scatter {
      OwnerAnswers(groups, keys, reachable, vs, q, addrs, data, answers[0]);
      return Merged(answers[0]);
    }
    ScatterTargets(groups, keys, reachable, vs, q, addrs, data);
    r := ScatterSelect(q, answers, ShardRows(data, addrs));
  }

  lemma OneTarget(groups: map<string, ShardGroup>, keys: seq<string>, reachable: set<Addr>, vs: map<string, string>,
                  q: Query, addrs: seq<Addr>)
    requires PrimaryRoute(groups, keys, reachable, vs, Statement.Select(q), addrs, false)
    ensures |addrs| == 1
  {
  }

  lemma ScatterTargets(groups: map<string, ShardGroup>, keys: seq<string>, reachable: set<Addr>,
                       vs: map<string, string>,
                       q: Query, addrs: seq<Addr>, data: Data)
    requires Topology(groups, keys) && AllReachable(groups, reachable)
    requires PrimaryRoute(groups, keys, reachable, vs, Statement.Select(q), addrs, true)
    ensures Flatten(ShardRows(data, addrs)) == Table(data, Primaries(groups, keys))
  {
    ScatterReachesAll(groups, keys, reachable);
    TableIsFlatten(data, addrs);
  }
}
