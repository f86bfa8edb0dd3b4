/** Where a sharded table's rows live, and what routing a statement to one shard means for them. */
module Placement {
  import opened Text
  import opened Sql
  import opened Parser
  import opened Shards
  import opened Router

  /** The rows of one sharded table, by the primary that stores them. */
  type Data = map<Addr, seq<Record>>

  function RowsAt(data: Data, addr: Addr): (recs: seq<Record>) {
    if addr in data then data[addr] else []
  }

  /** The whole table: all shards, one after the other. */
  function Table(data: Data, addrs: seq<Addr>): (recs: seq<Record>) {
    if addrs == [] then [] else Table(data, addrs[..|addrs| - 1]) + RowsAt(data, addrs[|addrs| - 1])
  }

  /** What the gate collects: each target filters its own rows. */
  function Collect(where: Option<Expr>, data: Data, addrs: seq<Addr>): (recs: seq<Record>) {
    if addrs == [] then []
    else Collect(where, data, addrs[..|addrs| - 1]) + Filter(where, RowsAt(data, addrs[|addrs| - 1]))
  }

  // ----- the topology and the placement of rows -----

  function Primaries(groups: map<string, ShardGroup>, keys: seq<string>): (addrs: seq<Addr>)
    requires forall k | k in keys :: k in groups
    ensures |addrs| == |keys| && forall i | 0 <= i < |keys| :: addrs[i] == groups[keys[i]].primary.addr
  {
    seq(|keys|, i requires 0 <= i < |keys| => groups[keys[i]].primary.addr)
  }

  /** Key ranges do not overlap and each group has its own primary. */
  ghost predicate Disjoint(groups: map<string, ShardGroup>) {
    && NoOverlap(groups)
    && (forall j, k | j in groups && k in groups && groups[j].primary.addr == groups[k].primary.addr :: j == k)
  }

  ghost predicate HasKeyIn(rec: Record, column: string, g: ShardGroup) {
    column in rec && AsNumber(rec[column]).Some? && Contains(g, AsNumber(rec[column]).value)
  }

  /** Every row lives on the shard that owns its key. */
  ghost predicate Placed(data: Data, groups: map<string, ShardGroup>, column: string) {
    forall k, rec | k in groups && rec in RowsAt(data, groups[k].primary.addr) :: HasKeyIn(rec, column, groups[k])
  }

  /** A topology: the group keys are enumerated, ranges and primaries are disjoint. */
  ghost predicate Topology(groups: map<string, ShardGroup>, keys: seq<string>) {
    Enumerates(keys, groups.Keys) && Disjoint(groups)
  }

  ghost predicate AllReachable(groups: map<string, ShardGroup>, reachable: set<Addr>) {
    forall k | k in groups :: groups[k].primary.addr in reachable
  }

  // ----- one shard answers like all shards -----

  lemma {:induction false} CollectIsFilter(where: Option<Expr>, data: Data, addrs: seq<Addr>)
    ensures Collect(where, data, addrs) == Filter(where, Table(data, addrs))
    decreases |addrs|
  {
    if addrs != [] {
      var init, last := addrs[..|addrs| - 1], addrs[|addrs| - 1];
      CollectIsFilter(where, data, init);
      FilterConcat(where, Table(data, init), RowsAt(data, last));
    }
  }

  lemma {:induction false} CollectOne(where: Option<Expr>, data: Data, addrs: seq<Addr>, i: nat)
    requires i < |addrs|
    requires forall j | 0 <= j < |addrs| && j != i :: Filter(where, RowsAt(data, addrs[j])) == []
    ensures Collect(where, data, addrs) == Filter(where, RowsAt(data, addrs[i]))
    decreases |addrs|
  {
    hide Filter, RowsAt;
    var n := |addrs| - 1;
    var init := addrs[..n];
    assert forall j | 0 <= j < n :: init[j] == addrs[j];
    if i == n {
      CollectNone(where, data, init);
    } else {
      assert Filter(where, RowsAt(data, addrs[n])) == [];
      CollectOne(where, data, init, i);
    }
  }

  lemma {:induction false} CollectNone(where: Option<Expr>, data: Data, addrs: seq<Addr>)
    requires forall j | 0 <= j < |addrs| :: Filter(where, RowsAt(data, addrs[j])) == []
    ensures Collect(where, data, addrs) == []
    decreases |addrs|
  {
    if addrs != [] {
      CollectNone(where, data, addrs[..|addrs| - 1]);
    }
  }

  lemma {:induction false} ScatterReachesAll(groups: map<string, ShardGroup>, keys: seq<string>, reachable: set<Addr>)
    requires (forall k | k in keys :: k in groups) && AllReachable(groups, reachable)
    ensures ScatterAddrs(groups, keys, reachable) == Primaries(groups, keys)
    decreases |keys|
  {
    if keys != [] {
      ScatterReachesAll(groups, keys[..|keys| - 1], reachable);
    }
  }

  /** The WHERE clause a key was found in. */
  function WhereOf(stmt: Statement): (where: Option<Expr>)
    requires stmt.Select? || stmt.Update? || stmt.Delete?
  {
    match stmt
    case Select(q) => q.where
    case Update(_, _, where) => where
    case Delete(_, where) => where
  }

  predicate Filters(stmt: Statement) {
    (stmt.Select? || stmt.Update? || stmt.Delete?) && (WhereOf(stmt).Some? ==> WellNamed(WhereOf(stmt).value))
  }

  /** No row outside the owning shard satisfies the WHERE clause. */
  lemma OthersFindNothing(groups: map<string, ShardGroup>, vs: map<string, string>, stmt: Statement, data: Data,
                          k: string, other: string)
    requires Filters(stmt) && Disjoint(groups) && TableName(stmt).value in vs
    requires Placed(data, groups, vs[TableName(stmt).value])
    requires ShardKey(vs, stmt).Some? && k in groups && Contains(groups[k], ShardKey(vs, stmt).value)
    requires other in groups && other != k
    ensures forall rec | rec in RowsAt(data, groups[other].primary.addr) :: !Satisfies(WhereOf(stmt), rec)
    ensures Filter(WhereOf(stmt), RowsAt(data, groups[other].primary.addr)) == []
  {
    var column, key := vs[TableName(stmt).value], ShardKey(vs, stmt).value;
    var recs := RowsAt(data, groups[other].primary.addr);
    forall rec | rec in recs ensures !Satisfies(WhereOf(stmt), rec) {
      assert HasKeyIn(rec, column, groups[other]);
      if Satisfies(WhereOf(stmt), rec) {
        EqualityBindsKey(WhereOf(stmt).value, column, rec, key);
      }
    }
    FilterNone(WhereOf(stmt), recs);
  }

  /** A SELECT of a transaction, routed to one primary or scattered over all reachable ones, returns the
      rows of the whole table that satisfy its WHERE clause. */
  lemma RoutedSelectComplete(groups: map<string, ShardGroup>, keys: seq<string>, reachable: set<Addr>,
                             vs: map<string, string>,
                             q: Query, addrs: seq<Addr>, scatter: bool, data: Data)
    requires Topology(groups, keys) && Filters(Select(q))
    requires PrimaryRoute(groups, keys, reachable, vs, Select(q), addrs, scatter)
    requires q.table in vs && Placed(data, groups, vs[q.table])
    requires scatter ==> AllReachable(groups, reachable)
    ensures Collect(q.where, data, addrs) == Filter(q.where, Table(data, Primaries(groups, keys)))
  {
    CollectIsFilter(q.where, data, Primaries(groups, keys));
    if scatter {
      ScatterReachesAll(groups, keys, reachable);
    } else {
      var k :| Owns(groups, reachable, vs, Select(q), k) && addrs == [groups[k].primary.addr];
      var i :| 0 <= i < |keys| && keys[i] == k;
      forall j | 0 <= j < |keys| && j != i ensures Filter(q.where, RowsAt(data, Primaries(groups, keys)[j])) == [] {
        OthersFindNothing(groups, vs, Select(q), data, k, keys[j]);
      }
      CollectOne(q.where, data, Primaries(groups, keys), i);
      CollectOne(q.where, data, addrs, 0);
    }
  }

  /** The primaries a scatter leaves out. */
  function Missed(groups: map<string, ShardGroup>, keys: seq<string>, reachable: set<Addr>): (addrs: seq<Addr>) {
    ScatterAddrs(groups, keys, (set k | k in groups :: groups[k].primary.addr) - reachable)
  }

  lemma {:induction false} ScatterConserves(groups: map<string, ShardGroup>, keys: seq<string>, reachable: set<Addr>,
                                            where: Option<Expr>, data: Data)
    requires forall k | k in keys :: k in groups
    ensures multiset(Collect(where, data, ScatterAddrs(groups, keys, reachable)))
          + multiset(Collect(where, data, Missed(groups, keys, reachable)))
         == multiset(Collect(where, data, Primaries(groups, keys)))
    decreases |keys|
  {
    if keys != [] {
      var init, k := keys[..|keys| - 1], keys[|keys| - 1];
      ScatterConserves(groups, init, reachable, where, data);
      var a := groups[k].primary.addr;
      ScatterSplits(groups, keys, reachable);
      PrimariesGrow(groups, keys);
      hide Collect, ScatterAddrs, Missed, RowsAt, Filter;
      CollectGrows(where, data, Primaries(groups, init), a);
      CollectGrows(where, data, ScatterAddrs(groups, init, reachable), a);
      CollectGrows(where, data, Missed(groups, init, reachable), a);
      AddOne(Collect(where, data, ScatterAddrs(groups, init, reachable)),
             Collect(where, data, Missed(groups, init, reachable)),
             Collect(where, data, Primaries(groups, init)), Filter(where, RowsAt(data, a)));
    }
  }

  lemma PrimariesGrow(groups: map<string, ShardGroup>, keys: seq<string>)
    requires keys != [] && forall k | k in keys :: k in groups
    ensures Primaries(groups, keys) == Primaries(groups, keys[..|keys| - 1]) + [groups[keys[|keys| - 1]].primary.addr]
  {
  }

  lemma AddOne(x: seq<Record>, y: seq<Record>, z: seq<Record>, more: seq<Record>)
    requires multiset(x) + multiset(y) == multiset(z)
    ensures multiset(x + more) + multiset(y) == multiset(z + more) == multiset(x) + multiset(y + more)
  {
  }

  lemma ScatterSplits(groups: map<string, ShardGroup>, keys: seq<string>, reachable: set<Addr>)
    requires keys != [] && keys[|keys| - 1] in groups
    ensures var init, a := keys[..|keys| - 1], groups[keys[|keys| - 1]].primary.addr;
            && ScatterAddrs(groups, keys, reachable)
                 == ScatterAddrs(groups, init, reachable) + (if a in reachable then [a] else [])
            && Missed(groups, keys, reachable) == Missed(groups, init, reachable) + if a in reachable then [] else [a]
  {
  }

  lemma CollectGrows(where: Option<Expr>, data: Data, addrs: seq<Addr>, a: Addr)
    ensures Collect(where, data, addrs + [a]) == Collect(where, data, addrs) + Filter(where, RowsAt(data, a))
  {
    assert (addrs + [a])[..|addrs|] == addrs;
  }

  /** With shards out of reach, a scattered SELECT is complete exactly when none of them has a matching row. */
  lemma ScatterCompleteIff(groups: map<string, ShardGroup>, keys: seq<string>, reachable: set<Addr>,
                           where: Option<Expr>, data: Data)
    requires forall k | k in keys :: k in groups
    ensures multiset(Collect(where, data, ScatterAddrs(groups, keys, reachable)))
              == multiset(Filter(where, Table(data, Primaries(groups, keys))))
       <==> Filter(where, Table(data, Missed(groups, keys, reachable))) == []
  {
    hide Collect, Filter, Table, ScatterAddrs, Missed;
    ScatterConserves(groups, keys, reachable, where, data);
    CollectIsFilter(where, data, Primaries(groups, keys));
    CollectIsFilter(where, data, Missed(groups, keys, reachable));
    NothingAdded(Collect(where, data, ScatterAddrs(groups, keys, reachable)),
                 Collect(where, data, Missed(groups, keys, reachable)), Collect(where, data, Primaries(groups, keys)));
  }

  lemma NothingAdded(x: seq<Record>, y: seq<Record>, z: seq<Record>)
    requires multiset(x) + multiset(y) == multiset(z)
    ensures multiset(x) == multiset(z) <==> y == []
  {
    assert |multiset(x)| + |multiset(y)| == |multiset(z)|;
    assert |y| == |multiset(y)|;
  }

  // ----- what a statement does to the rows of one shard -----

  /** Right-hand sides read the row as it was. */
  function SetAll(sets: seq<Assignment>, rec: Record): (rec': Record) {
    if sets == [] then rec
    else
      var last := sets[|sets| - 1];
      SetAll(sets[..|sets| - 1], rec)[last.column := Value(last.value, rec)]
  }

  function Updated(where: Option<Expr>, sets: seq<Assignment>, recs: seq<Record>): (recs': seq<Record>)
    ensures |recs'| == |recs|
    ensures forall i | 0 <= i < |recs| ::
              recs'[i] == if Satisfies(where, recs[i]) then SetAll(sets, recs[i]) else recs[i]
  {
    seq(|recs|, i requires 0 <= i < |recs| => if Satisfies(where, recs[i]) then SetAll(sets, recs[i]) else recs[i])
  }

  function Remaining(where: Option<Expr>, recs: seq<Record>): (recs': seq<Record>)
    ensures forall rec :: rec in recs' <==> rec in recs && !Satisfies(where, rec)
    ensures (forall rec | rec in recs :: !Satisfies(where, rec)) ==> recs' == recs
  {
    if recs == [] then []
    else
      var init, last := recs[..|recs| - 1], recs[|recs| - 1];
      assert recs == init + [last];
      if Satisfies(where, last) then Remaining(where, init) else Remaining(where, init) + [last]
  }

  function NewRecord(columns: seq<string>, row: seq<Operand>): (rec: Record)
    requires |row| == |columns|
  {
    if columns == [] then map[]
    else
      var n := |columns| - 1;
      NewRecord(columns[..n], row[..n])[columns[n] := Value(row[n], map[])]
  }

  /** The database accepts rows as wide as a column list without repeats. */
  predicate ValidInsert(columns: seq<string>, rows: seq<seq<Operand>>) {
    && (forall i, j | 0 <= i < j < |columns| :: columns[i] != columns[j])
    && (forall row | row in rows :: |row| == |columns|)
  }

  function NewRecords(columns: seq<string>, rows: seq<seq<Operand>>): (recs: seq<Record>)
    requires ValidInsert(columns, rows)
    ensures |recs| == |rows| && forall i | 0 <= i < |rows| :: recs[i] == NewRecord(columns, rows[i])
  {
    seq(|rows|, i requires 0 <= i < |rows| => assert rows[i] in rows; NewRecord(columns, rows[i]))
  }

  function ExecuteOn(table: string, stmt: Statement, recs: seq<Record>): (recs': seq<Record>) {
    match stmt
    case Insert(t, columns, rows) =>
      if t == table && ValidInsert(columns, rows) then recs + NewRecords(columns, rows) else recs
    case Update(t, sets, where) => if t == table then Updated(where, sets, recs) else recs
    case Delete(t, where) => if t == table then Remaining(where, recs) else recs
    case _ => recs
  }

  /** The statement takes effect at the given addresses. */
  function ExecuteAt(table: string, stmt: Statement, data: Data, at: set<Addr>): (data': Data) {
    map a | a in data.Keys + at :: if a in at then ExecuteOn(table, stmt, RowsAt(data, a)) else data[a]
  }

  function AsSet(addrs: seq<Addr>): (s: set<Addr>) {
    set a | a in addrs
  }

  lemma RowsAfter(table: string, stmt: Statement, data: Data, at: set<Addr>, a: Addr)
    ensures RowsAt(ExecuteAt(table, stmt, data, at), a)
         == if a in at then ExecuteOn(table, stmt, RowsAt(data, a)) else RowsAt(data, a)
  {
  }

  // ----- UPDATE and DELETE on one shard change what they would change on all -----

  ghost predicate SameOnShards(groups: map<string, ShardGroup>, data: Data, data': Data) {
    forall k | k in groups :: RowsAt(data, groups[k].primary.addr) == RowsAt(data', groups[k].primary.addr)
  }

  lemma OwnerOnly(groups: map<string, ShardGroup>, keys: seq<string>, vs: map<string, string>, table: string,
                  stmt: Statement,
                  data: Data, owner: string, k: string)
    requires Topology(groups, keys) && Filters(stmt) && TableName(stmt) == Some(table) && table in vs
    requires Placed(data, groups, vs[table])
    requires ShardKey(vs, stmt).Some? && owner in groups && Contains(groups[owner], ShardKey(vs, stmt).value)
    requires k in groups
    ensures RowsAt(ExecuteAt(table, stmt, data, {groups[owner].primary.addr}), groups[k].primary.addr)
         == RowsAt(ExecuteAt(table, stmt, data, AsSet(Primaries(groups, keys))), groups[k].primary.addr)
  {
    hide Owns, Placed, ShardKey, Filters;
    var a, all := groups[k].primary.addr, Primaries(groups, keys);
    var i :| 0 <= i < |keys| && keys[i] == k;
    assert all[i] == a;
    RowsAfter(table, stmt, data, {groups[owner].primary.addr}, a);
    RowsAfter(table, stmt, data, AsSet(all), a);
    if k != owner {
      OthersFindNothing(groups, vs, stmt, data, owner, k);
      NoneTouched(table, stmt, RowsAt(data, a));
    }
  }

  lemma NoneTouched(table: string, stmt: Statement, recs: seq<Record>)
    requires Filters(stmt) && forall rec | rec in recs :: !Satisfies(WhereOf(stmt), rec)
    ensures ExecuteOn(table, stmt, recs) == recs
  {
  }

  /** An UPDATE or DELETE, routed to one primary or scattered over all reachable ones, leaves every shard
      as if it had run on the whole table. */
  lemma RoutedWriteComplete(groups: map<string, ShardGroup>, keys: seq<string>, reachable: set<Addr>,
                            vs: map<string, string>,
                            table: string, stmt: Statement, addrs: seq<Addr>, scatter: bool, data: Data)
    requires Topology(groups, keys) && Filters(stmt) && PrimaryRoute(groups, keys, reachable, vs, stmt, addrs, scatter)
    requires TableName(stmt) == Some(table) && table in vs && Placed(data, groups, vs[table])
    requires scatter ==> AllReachable(groups, reachable)
    ensures SameOnShards(groups, ExecuteAt(table, stmt, data, AsSet(addrs)),
                         ExecuteAt(table, stmt, data, AsSet(Primaries(groups, keys))))
  {
    hide Placed, Filters, ExecuteAt, ShardKey;
    if scatter {
      ScatterReachesAll(groups, keys, reachable);
    } else {
      var owner :| Owns(groups, reachable, vs, stmt, owner) && addrs == [groups[owner].primary.addr];
      assert AsSet(addrs) == {groups[owner].primary.addr};
      forall k | k in groups
        ensures RowsAt(ExecuteAt(table, stmt, data, {groups[owner].primary.addr}), groups[k].primary.addr)
             == RowsAt(ExecuteAt(table, stmt, data, AsSet(Primaries(groups, keys))), groups[k].primary.addr)
      {
        OwnerOnly(groups, keys, vs, table, stmt, data, owner, k);
      }
    }
  }

  // ----- placement over runs -----

  lemma {:induction false} SetAllKeeps(sets: seq<Assignment>, rec: Record, column: string)
    requires column in rec && forall s | s in sets :: s.column != column
    ensures column in SetAll(sets, rec) && SetAll(sets, rec)[column] == rec[column]
    decreases |sets|
  {
    if sets != [] {
      SetAllKeeps(sets[..|sets| - 1], rec, column);
    }
  }

  lemma {:induction false} NewRecordHas(columns: seq<string>, row: seq<Operand>, i: nat)
    requires |row| == |columns| && i < |columns| && forall j | i < j < |columns| :: columns[j] != columns[i]
    ensures columns[i] in NewRecord(columns, row) && NewRecord(columns, row)[columns[i]] == Value(row[i], map[])
    decreases |columns|
  {
    var n := |columns| - 1;
    if i < n {
      NewRecordHas(columns[..n], row[..n], i);
    }
  }

  /** Operands of an INSERT as the parser yields them. */
  predicate AllNamed(rows: seq<seq<Operand>>) {
    forall row, o | row in rows && o in row :: Named(o)
  }

  /** The statements under which placement is promised. */
  ghost predicate Admissible(groups: map<string, ShardGroup>, reachable: set<Addr>, vs: map<string, string>,
                             table: string, stmt: Statement) {
    match stmt
    case Insert(t, _, rows) =>
      t == table ==> |rows| == 1 && AllNamed(rows) && exists k :: Owns(groups, reachable, vs, stmt, k)
    case Update(t, sets, _) => t == table && table in vs ==> forall s | s in sets :: s.column != vs[table]
    case _ => true
  }

  /** The record a routed single-row INSERT adds carries the shard key. */
  lemma InsertedKey(vs: map<string, string>, table: string, stmt: Statement)
    requires stmt.Insert? && stmt.table == table && ValidInsert(stmt.columns, stmt.rows) && AllNamed(stmt.rows)
    requires ShardKey(vs, stmt).Some?
    ensures table in vs && |stmt.rows| == 1
    ensures var rec := NewRecords(stmt.columns, stmt.rows)[0];
            vs[table] in rec && AsNumber(rec[vs[table]]) == ShardKey(vs, stmt)
  {
    var row, i := stmt.rows[0], FirstIndex(stmt.columns, vs[table]).value;
    assert row in stmt.rows && row[i] in row;
    NumericOperand(row[i], map[]);
    NewRecordHas(stmt.columns, row, i);
  }

  lemma InsertKeeps(groups: map<string, ShardGroup>, keys: seq<string>, reachable: set<Addr>, vs: map<string, string>,
                    table: string, stmt: Statement, addrs: seq<Addr>, scatter: bool, k: string, recs: seq<Record>)
    requires Topology(groups, keys) && stmt.Insert? && stmt.table == table && ValidInsert(stmt.columns, stmt.rows)
    requires table in vs && Admissible(groups, reachable, vs, table, stmt)
    requires PrimaryRoute(groups, keys, reachable, vs, stmt, addrs, scatter)
    requires k in groups && groups[k].primary.addr in addrs
    requires forall rec | rec in recs :: HasKeyIn(rec, vs[table], groups[k])
    ensures !scatter && forall rec | rec in ExecuteOn(table, stmt, recs) :: HasKeyIn(rec, vs[table], groups[k])
  {
    var owner :| Owns(groups, reachable, vs, stmt, owner);
    InsertedKey(vs, table, stmt);
    assert Contains(groups[owner], ShardKey(vs, stmt).value);
    assert !scatter;
    var target :| Owns(groups, reachable, vs, stmt, target) && addrs == [groups[target].primary.addr];
    assert addrs[0] == groups[k].primary.addr;
    assert NewRecords(stmt.columns, stmt.rows) == [NewRecords(stmt.columns, stmt.rows)[0]];
  }

  /** One shard's rows keep their keys' owner. */
  lemma ShardKeeps(groups: map<string, ShardGroup>, keys: seq<string>, reachable: set<Addr>, vs: map<string, string>,
                   table: string, stmt: Statement, addrs: seq<Addr>, scatter: bool, k: string, recs: seq<Record>)
    requires Topology(groups, keys) && table in vs && Admissible(groups, reachable, vs, table, stmt)
    requires PrimaryRoute(groups, keys, reachable, vs, stmt, addrs, scatter)
    requires k in groups && groups[k].primary.addr in addrs
    requires forall rec | rec in recs :: HasKeyIn(rec, vs[table], groups[k])
    ensures forall rec | rec in ExecuteOn(table, stmt, recs) :: HasKeyIn(rec, vs[table], groups[k])
  {
    match stmt
    case Insert(t, columns, rows) =>
      if t == table && ValidInsert(columns, rows) {
        InsertKeeps(groups, keys, reachable, vs, table, stmt, addrs, scatter, k, recs);
      }
    case Update(t, sets, where) =>
      if t == table {
        forall i | 0 <= i < |recs| ensures HasKeyIn(Updated(where, sets, recs)[i], vs[table], groups[k]) {
          assert recs[i] in recs;
          SetAllKeeps(sets, recs[i], vs[table]);
        }
      }
    case _ =>
  }

  /** A statement, how it was routed, and the targets where it took effect: a write that fails part way
      leaves some targets untouched. */
  datatype Step = Step(stmt: Statement, reachable: set<Addr>, addrs: seq<Addr>, scatter: bool, done: set<Addr>)

  ghost predicate IsStep(groups: map<string, ShardGroup>, keys: seq<string>, vs: map<string, string>, table: string,
                         data: Data, step: Step, data': Data) {
    && Admissible(groups, step.reachable, vs, table, step.stmt)
    && (IsWrite(step.stmt) ==> PrimaryRoute(groups, keys, step.reachable, vs, step.stmt, step.addrs, step.scatter))
    && step.done <= AsSet(step.addrs)
    && data' == ExecuteAt(table, step.stmt, data, step.done)
  }

  ghost predicate IsRun(groups: map<string, ShardGroup>, keys: seq<string>, vs: map<string, string>, table: string,
                        datas: seq<Data>, steps: seq<Step>) {
    && |datas| == |steps| + 1
    && forall i | 0 <= i < |steps| :: IsStep(groups, keys, vs, table, datas[i], steps[i], datas[i + 1])
  }

  lemma StepKeepsPlacement(groups: map<string, ShardGroup>, keys: seq<string>, vs: map<string, string>, table: string,
                           data: Data, step: Step, data': Data)
    requires Topology(groups, keys) && table in vs && Placed(data, groups, vs[table])
    requires IsStep(groups, keys, vs, table, data, step, data')
    ensures Placed(data', groups, vs[table])
  {
    forall k | k in groups
      ensures forall rec | rec in RowsAt(data', groups[k].primary.addr) :: HasKeyIn(rec, vs[table], groups[k])
    {
      var a := groups[k].primary.addr;
      RowsAfter(table, step.stmt, data, step.done, a);
      if a in step.done && IsWrite(step.stmt) {
        ShardKeeps(groups, keys, step.reachable, vs, table, step.stmt, step.addrs, step.scatter, k, RowsAt(data, a));
      }
    }
  }

  /** Whatever admissible statements run, and wherever they fail, every row stays on the shard that
      owns its key. */
  lemma {:induction false} PlacementIsInvariant(groups: map<string, ShardGroup>, keys: seq<string>,
                                                vs: map<string, string>, table: string,
                                                datas: seq<Data>, steps: seq<Step>, n: nat)
    requires Topology(groups, keys) && table in vs && IsRun(groups, keys, vs, table, datas, steps)
    requires Placed(datas[0], groups, vs[table]) && n < |datas|
    ensures Placed(datas[n], groups, vs[table])
  {
    hide Topology, Placed, IsStep;
    if n > 0 {
      PlacementIsInvariant(groups, keys, vs, table, datas, steps, n - 1);
      var i := n - 1;
      assert IsStep(groups, keys, vs, table, datas[i], steps[i], datas[i + 1]);
      StepKeepsPlacement(groups, keys, vs, table, datas[i], steps[i], datas[i + 1]);
    }
  }

  /** A scattered INSERT stores its rows on two shards, but no key belongs to two. */
  lemma ScatteredInsertMisplaces(groups: map<string, ShardGroup>, keys: seq<string>, column: string,
                                 table: string, stmt: Statement, data: Data)
    requires Topology(groups, keys) && |keys| >= 2
    requires stmt.Insert? && stmt.table == table && ValidInsert(stmt.columns, stmt.rows) && stmt.rows != []
    ensures !Placed(ExecuteAt(table, stmt, data, AsSet(Primaries(groups, keys))), groups, column)
  {
    var addrs, rec := Primaries(groups, keys), NewRecords(stmt.columns, stmt.rows)[0];
    var data' := ExecuteAt(table, stmt, data, AsSet(addrs));
    forall i | 0 <= i < 2 ensures rec in RowsAt(data', groups[keys[i]].primary.addr) {
      var a := addrs[i];
      RowsAfter(table, stmt, data, AsSet(addrs), a);
      assert RowsAt(data', a)[|RowsAt(data, a)|] == rec;
    }
    assert keys[0] != keys[1];
    assert rec in RowsAt(data', groups[keys[0]].primary.addr) && rec in RowsAt(data', groups[keys[1]].primary.addr);
  }

  ghost predicate AllKeysIn(recs: seq<Record>, column: string, g: ShardGroup) {
    forall rec | rec in recs :: HasKeyIn(rec, column, g)
  }

  /** A scatter reaches exactly the primaries in reach. */
  lemma {:induction false} InScatter(groups: map<string, ShardGroup>, keys: seq<string>, reachable: set<Addr>, a: Addr)
    ensures a in ScatterAddrs(groups, keys, reachable)
       <==> a in reachable && exists k :: k in keys && k in groups && groups[k].primary.addr == a
    decreases |keys|
  {
    if keys != [] {
      assert keys == keys[..|keys| - 1] + [keys[|keys| - 1]];
      InScatter(groups, keys[..|keys| - 1], reachable, a);
    }
  }

  /** Every shard in reach that is asked to store rows has to own their keys. */
  ghost predicate ReachableOwnAll(groups: map<string, ShardGroup>, reachable: set<Addr>, column: string,
                                  recs: seq<Record>) {
    forall k | k in groups && groups[k].primary.addr in reachable :: AllKeysIn(recs, column, groups[k])
  }

  lemma RowsInserted(groups: map<string, ShardGroup>, keys: seq<string>, reachable: set<Addr>, table: string,
                     stmt: Statement, data: Data, k: string)
    requires Topology(groups, keys) && k in groups
    requires stmt.Insert? && stmt.table == table && ValidInsert(stmt.columns, stmt.rows)
    ensures RowsAt(ExecuteAt(table, stmt, data, AsSet(ScatterAddrs(groups, keys, reachable))), groups[k].primary.addr)
         == RowsAt(data, groups[k].primary.addr)
            + (if groups[k].primary.addr in reachable then NewRecords(stmt.columns, stmt.rows) else [])
  {
    var a, at := groups[k].primary.addr, AsSet(ScatterAddrs(groups, keys, reachable));
    InScatter(groups, keys, reachable, a);
    assert k in keys;
    RowsAfter(table, stmt, data, at, a);
  }

  /** A scattered INSERT adds its rows to every shard in reach. */
  lemma ScatteredInsertIff(groups: map<string, ShardGroup>, keys: seq<string>, reachable: set<Addr>, column: string,
                           table: string, stmt: Statement, data: Data)
    requires Topology(groups, keys) && Placed(data, groups, column)
    requires stmt.Insert? && stmt.table == table && ValidInsert(stmt.columns, stmt.rows)
    ensures Placed(ExecuteAt(table, stmt, data, AsSet(ScatterAddrs(groups, keys, reachable))), groups, column)
       <==> ReachableOwnAll(groups, reachable, column, NewRecords(stmt.columns, stmt.rows))
  {
    hide ExecuteAt, HasKeyIn, ScatterAddrs, Topology;
    var added := NewRecords(stmt.columns, stmt.rows);
    var data' := ExecuteAt(table, stmt, data, AsSet(ScatterAddrs(groups, keys, reachable)));
    forall k | k in groups
      ensures (forall rec | rec in RowsAt(data', groups[k].primary.addr) :: HasKeyIn(rec, column, groups[k]))
         <==> (groups[k].primary.addr in reachable ==> AllKeysIn(added, column, groups[k]))
    {
      var a := groups[k].primary.addr;
      RowsInserted(groups, keys, reachable, table, stmt, data, k);
      assert forall rec :: rec in RowsAt(data', a) <==> rec in RowsAt(data, a) || (a in reachable && rec in added);
    }
  }

  /** An INSERT keeps placement exactly when an owner of the key it names is in reach, or when every shard in
      reach owns the keys of all its rows. So with at least two shards, all in reach, exactly when it names
      a key some shard owns: otherwise it is scattered and every shard stores every row. */
  lemma InsertKeepsPlacementIff(groups: map<string, ShardGroup>, keys: seq<string>, reachable: set<Addr>,
                                vs: map<string, string>, table: string, stmt: Statement, addrs: seq<Addr>,
                                scatter: bool, data: Data)
    requires Topology(groups, keys) && table in vs && Placed(data, groups, vs[table])
    requires stmt.Insert? && stmt.table == table && ValidInsert(stmt.columns, stmt.rows) && AllNamed(stmt.rows)
    requires PrimaryRoute(groups, keys, reachable, vs, stmt, addrs, scatter)
    ensures Placed(ExecuteAt(table, stmt, data, AsSet(addrs)), groups, vs[table])
       <==> || (exists k :: Owns(groups, reachable, vs, stmt, k))
            || ReachableOwnAll(groups, reachable, vs[table], NewRecords(stmt.columns, stmt.rows))
    ensures |keys| >= 2 && AllReachable(groups, reachable) && stmt.rows != [] ==>
              (Placed(ExecuteAt(table, stmt, data, AsSet(addrs)), groups, vs[table])
               <==> && ShardKey(vs, stmt).Some?
                    && exists k :: k in groups && Contains(groups[k], ShardKey(vs, stmt).value))
  {
    hide Placed, ExecuteAt, ReachableOwnAll;
    if k :| Owns(groups, reachable, vs, stmt, k) {
      InsertedKey(vs, table, stmt);
      StepKeepsPlacement(groups, keys, vs, table, data, Step(stmt, reachable, addrs, scatter, AsSet(addrs)),
                         ExecuteAt(table, stmt, data, AsSet(addrs)));
    } else {
      ScatteredInsertIff(groups, keys, reachable, vs[table], table, stmt, data);
      if |keys| >= 2 && AllReachable(groups, reachable) && stmt.rows != [] {
        ScatterReachesAll(groups, keys, reachable);
        ScatteredInsertMisplaces(groups, keys, vs[table], table, stmt, data);
        forall k | k in groups && ShardKey(vs, stmt).Some? ensures !Contains(groups[k], ShardKey(vs, stmt).value) {
          assert !Owns(groups, reachable, vs, stmt, k);
        }
      }
    }
  }

  // ----- lookups do not depend on the order of Sync -----

  /** Groups rebuilt from the same tablets in another order: the same shard, with the same primary, owns
      a key. */
  lemma LookupIndependentOfOrder(s: seq<TabletInfo>, t: seq<TabletInfo>, want: map<Addr, TabletInfo>, key: int,
                                 j: string)
    requires Visits(s, want) && Visits(t, want) && AllConsistent(want) && Disjoint(FixedAll(Build(s)))
    requires j in FixedAll(Build(s)) && Contains(FixedAll(Build(s))[j], key)
    ensures j in FixedAll(Build(t)) && FixedAll(Build(t))[j].primary == FixedAll(Build(s))[j].primary
    ensures forall k :: k in FixedAll(Build(t)) && Contains(FixedAll(Build(t))[k], key) <==> k == j
  {
    hide Visits, AllConsistent, Build, FixedAll;
    SyncIndependentOfOrder(s, t, want);
    var gs, gt := FixedAll(Build(s)), FixedAll(Build(t));
    forall k ensures k in gt && Contains(gt[k], key) <==> k == j {
      if k in gs {
        assert SameGroup(gs[k], gt[k]);
      }
    }
  }
}
