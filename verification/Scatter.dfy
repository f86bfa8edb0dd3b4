/** Scatter queries: DISTINCT, ORDER BY and LIMIT are stripped for the shards and re-applied at the gate. */
module Scatter {
  import opened Text
  import opened Cells
  import opened Sql
  import opened Distinct
  import opened Lists
  import QuickSort
  import Aggregates

  // ----- planning -----

  /** `limit` is -1 when the query has none. */
  datatype Plan = Plan(distinct: bool, orderBy: seq<OrderColumn>, limit: int, offset: int)

  /** `evalIntExpr`: a literal is cut at the greatest 64-bit integer, anything else counts as 0. */
  function EvalInt(e: IntExpr): (n: nat) {
    if e.Computed? then 0 else if e.n <= MAX_INT64 then e.n else MAX_INT64
  }

  function ExtractPlan(q: Query): (p: Plan) {
    Plan(q.distinct, q.orderBy,
         if q.limit.Some? then EvalInt(q.limit.value) else -1,
         if q.offset.Some? then EvalInt(q.offset.value) else 0)
  }

  function StripForScatter(q: Query): (r: Query) {
    q.(distinct := false, orderBy := [], limit := None, offset := None)
  }

  predicate NeedsShardRewrite(p: Plan) {
    p.orderBy != [] || p.limit >= 0 || p.offset > 0 || p.distinct
  }

  /** The gate's test for merging at all (for plans without aggregates). */
  predicate NeedsMerge(p: Plan) {
    p.distinct || p.orderBy != [] || p.limit >= 0
  }

  /** What is sent to the shards. */
  function ShardQuery(q: Query): (r: Query) {
    if NeedsShardRewrite(ExtractPlan(q)) then StripForScatter(q) else q
  }

  // ----- what a query means on one node -----

  function Project(columns: seq<string>, rec: Record): (r: Row)
    ensures |r| == |columns|
  {
    seq(|columns|, i requires 0 <= i < |columns| => if columns[i] in rec then rec[columns[i]] else Nil)
  }

  function ProjectAll(columns: seq<string>, recs: seq<Record>): (rows: seq<Row>)
    ensures |rows| == |recs| && forall i | 0 <= i < |rows| :: rows[i] == Project(columns, recs[i])
  {
    seq(|recs|, i requires 0 <= i < |recs| => Project(columns, recs[i]))
  }

  /** The rows of the result before they are arranged and cut. */
  function ResultRows(q: Query, recs: seq<Record>): (rows: seq<Row>)
    ensures forall r | r in rows :: |r| == |q.columns|
  {
    var all := ProjectAll(q.columns, Filter(q.where, recs));
    if q.distinct then DedupElements(all); Dedup(all) else all
  }

  function LowerChar(c: char): (d: char) {
    if 'A' <= c <= 'Z' then c - 'A' + 'a' else c
  }

  /** `strings.ToLower` on ASCII. */
  function Lower(s: string): (t: string)
    ensures |t| == |s| && forall i | 0 <= i < |s| :: t[i] == LowerChar(s[i])
  {
    seq(|s|, i requires 0 <= i < |s| => LowerChar(s[i]))
  }

  /** Each ORDER BY name is resolved to a result column of that name, whatever its case. */
  ghost predicate KeysFor(columns: seq<string>, orderBy: seq<OrderColumn>, keys: seq<Key>) {
    && |keys| == |orderBy|
    && forall k | 0 <= k < |keys| ::
         && keys[k].idx < |columns| && Lower(columns[keys[k].idx]) == Lower(orderBy[k].name)
         && keys[k].dir == orderBy[k].dir
  }

  function Slice(rows: seq<Row>, offset: nat, limit: Option<nat>): (out: seq<Row>) {
    var n := |rows|;
    var start := if offset > n then n else offset;
    var end := if limit.None? || start + limit.value > n then n else start + limit.value;
    rows[start..end]
  }

  function ValueOf(e: Option<IntExpr>): (n: Option<nat>) {
    match e
    case None => None
    case Some(Literal(n)) => Some(n)
    case Some(Computed(v)) => Some(v)
  }

  function OffsetOf(q: Query): (n: nat) {
    if ValueOf(q.offset).Some? then ValueOf(q.offset).value else 0
  }

  /** `arr` is the result, arranged as ORDER BY asks. */
  ghost predicate Arranged(q: Query, recs: seq<Record>, keys: seq<Key>, arr: seq<Row>) {
    && KeysFor(q.columns, q.orderBy, keys) && multiset(arr) == multiset(ResultRows(q, recs))
    && QuickSort.EachWide(keys, arr) && QuickSort.Sorted(keys, arr, 0, |arr|)
  }

  /** `out` is a correct answer of a single node that holds `recs`: the slice [offset, offset+limit) of
      a sorted arrangement of the result rows. Ties may come in any order. */
  ghost predicate IsAnswer(q: Query, recs: seq<Record>, out: seq<Row>) {
    exists keys, arr :: Arranged(q, recs, keys, arr) && out == Slice(arr, OffsetOf(q), ValueOf(q.limit))
  }

  /** The row shows these columns of the record. */
  ghost predicate Shows(columns: seq<string>, rec: Record, r: Row) {
    |r| == |columns| && forall c | 0 <= c < |r| :: r[c] == if columns[c] in rec then rec[columns[c]] else Nil
  }

  /** How many of `n` rows are left after skipping `offset` of them and taking at most `limit`. */
  function Remaining(n: nat, offset: nat, limit: Option<nat>): (m: nat)
    ensures offset >= n ==> m == 0
    ensures offset < n && limit.None? ==> offset + m == n
    ensures offset < n && limit.Some? ==> m <= limit.value && offset + m <= n && (m == limit.value || offset + m == n)
  {
    var left := if offset < n then n - offset else 0;
    if limit.Some? && limit.value < left then limit.value else left
  }

  lemma SliceInNumbers(rows: seq<Row>, offset: nat, limit: Option<nat>)
    ensures var out, skip := Slice(rows, offset, limit), if offset < |rows| then offset else |rows|;
            && |out| == Remaining(|rows|, offset, limit) && multiset(out) <= multiset(rows)
            && forall i | 0 <= i < |out| :: out[i] == rows[skip + i]
  {
    var out, skip := Slice(rows, offset, limit), if offset < |rows| then offset else |rows|;
    assert out == rows[skip..skip + |out|];
    assert rows == rows[..skip] + out + rows[skip + |out|..];
  }

  /** An answer in numbers: how many rows it has, that they are rows of the result, each as often at most as there,
      and that the numbers in the leading ORDER BY column are in order. */
  ghost predicate InNumbers(q: Query, recs: seq<Record>, out: seq<Row>) {
    && |out| == Remaining(|ResultRows(q, recs)|, OffsetOf(q), ValueOf(q.limit))
    && multiset(out) <= multiset(ResultRows(q, recs))
    && (q.orderBy != [] ==>
          exists c: nat | c < |q.columns| && Lower(q.columns[c]) == Lower(q.orderBy[0].name) ::
            QuickSort.InOrder(Key(c, q.orderBy[0].dir), out))
  }

  lemma AnswerInNumbers(q: Query, recs: seq<Record>, out: seq<Row>)
    requires IsAnswer(q, recs, out)
    ensures InNumbers(q, recs, out)
  {
    hide IsAnswer, Arranged, Slice, ResultRows, Lower, Remaining, QuickSort.InOrder, OffsetOf, ValueOf;
    var keys, arr := AnswerOf(q, recs, out);
    SliceInNumbers(arr, OffsetOf(q), ValueOf(q.limit));
    if q.orderBy != [] {
      var k := LeadingInOrder(q, recs, keys, arr);
      SliceInOrder(k, arr, out, if OffsetOf(q) < |arr| then OffsetOf(q) else |arr|);
      assert k == Key(k.idx, q.orderBy[0].dir);
    }
  }

  lemma LeadingInOrder(q: Query, recs: seq<Record>, keys: seq<Key>, arr: seq<Row>) returns (k: Key)
    requires Arranged(q, recs, keys, arr) && q.orderBy != []
    ensures k.idx < |q.columns| && Lower(q.columns[k.idx]) == Lower(q.orderBy[0].name) && k.dir == q.orderBy[0].dir
    ensures QuickSort.InOrder(k, arr)
  {
    hide ResultRows, Lower, QuickSort.InOrder;
    k := keys[0];
    QuickSort.SortedInOrder(keys, arr);
  }

  lemma SliceInOrder(k: Key, rows: seq<Row>, out: seq<Row>, skip: nat)
    requires QuickSort.InOrder(k, rows) && skip + |out| <= |rows|
    requires forall i | 0 <= i < |out| :: out[i] == rows[skip + i]
    ensures QuickSort.InOrder(k, out)
  {
  }

  /** Every row of an answer shows a stored record that satisfies the WHERE clause. */
  lemma AnswerShows(q: Query, recs: seq<Record>, out: seq<Row>, r: Row)
    requires IsAnswer(q, recs, out) && r in out
    ensures exists rec | rec in recs :: Satisfies(q.where, rec) && Shows(q.columns, rec, r)
  {
    hide IsAnswer, Arranged, Slice, ResultRows, OffsetOf, ValueOf, Remaining, Shows;
    var keys, arr := AnswerOf(q, recs, out);
    SliceInNumbers(arr, OffsetOf(q), ValueOf(q.limit));
    assert r in multiset(out);
    assert r in multiset(ResultRows(q, recs));
    ResultShows(q, recs, r);
  }

  lemma ResultShows(q: Query, recs: seq<Record>, r: Row)
    requires r in ResultRows(q, recs)
    ensures exists rec | rec in recs :: Satisfies(q.where, rec) && Shows(q.columns, rec, r)
  {
    var found := Filter(q.where, recs);
    var all := ProjectAll(q.columns, found);
    DedupElements(all);
    var i :| 0 <= i < |all| && all[i] == r;
    FilterSubset(q.where, recs);
    hide Filter, Satisfies, Dedup;
    assert found[i] in found;
    assert Shows(q.columns, found[i], r);
  }

  // ----- the merge engine -----

  datatype MergeResult = Merged(rows: seq<Row>) | MissingColumn | SliceOutOfRange

  predicate HasColumn(columns: seq<string>, name: string) {
    exists i | 0 <= i < |columns| :: Lower(columns[i]) == Lower(name)
  }

  predicate Resolves(columns: seq<string>, orderBy: seq<OrderColumn>) {
    forall k | 0 <= k < |orderBy| :: HasColumn(columns, orderBy[k].name)
  }

  /** Names are the same apart from case: the characters are the same, or one is the other's upper-case letter. */
  lemma LowerIff(s: string, t: string)
    ensures Lower(s) == Lower(t) <==>
            |s| == |t| && forall i | 0 <= i < |s| ::
              || s[i] == t[i]
              || ('A' <= s[i] <= 'Z' && t[i] as int == s[i] as int + 32)
              || ('A' <= t[i] <= 'Z' && s[i] as int == t[i] as int + 32)
  {
    if Lower(s) == Lower(t) {
      forall i | 0 <= i < |s| ensures LowerChar(s[i]) == LowerChar(t[i]) {
        assert Lower(s)[i] == Lower(t)[i];
      }
    }
  }

  lemma LowerTwice(s: string)
    ensures Lower(Lower(s)) == Lower(s)
  {
  }

  lemma KeysResolve(columns: seq<string>, orderBy: seq<OrderColumn>, keys: seq<Key>)
    requires KeysFor(columns, orderBy, keys)
    ensures Resolves(columns, orderBy)
  {
    forall k | 0 <= k < |orderBy| ensures HasColumn(columns, orderBy[k].name) {
      assert Lower(columns[keys[k].idx]) == Lower(orderBy[k].name);
    }
  }

  /** No later column has that name, whatever its case. */
  predicate IsLast(columns: seq<string>, name: string, idx: nat) {
    forall j | idx < j < |columns| :: Lower(columns[j]) != Lower(name)
  }

  /** The first half of `sortRows`: a map from lower-case name to position, then one lookup per ORDER
      BY column. The second lookup, under the name as written, never finds what the first did not. */
  method ResolveOrder(columns: seq<string>, orderBy: seq<OrderColumn>) returns (r: Option<seq<Key>>)
    ensures r.Some? <==> Resolves(columns, orderBy)
    ensures r.Some? ==> KeysFor(columns, orderBy, r.value)
    ensures r.Some? ==> forall k | 0 <= k < |orderBy| :: IsLast(columns, orderBy[k].name, r.value[k].idx)
  {
    hide Lower;
    var colMap: map<string, nat> := map[];
    for i := 0 to |columns|
      invariant forall name | name in colMap :: colMap[name] < i && Lower(columns[colMap[name]]) == name
      invariant forall name, j | name in colMap && colMap[name] < j < i :: Lower(columns[j]) != name
      invariant forall k | 0 <= k < i :: Lower(columns[k]) in colMap
    {
      colMap := colMap[Lower(columns[i]) := i];
    }
    var keys: seq<Key> := [];
    for k := 0 to |orderBy|
      invariant |keys| == k
      invariant forall j | 0 <= j < k ::
        && keys[j].idx < |columns| && Lower(columns[keys[j].idx]) == Lower(orderBy[j].name)
        && keys[j].dir == orderBy[j].dir && IsLast(columns, orderBy[j].name, keys[j].idx)
    {
      var name := Lower(orderBy[k].name);
      LowerTwice(orderBy[k].name);
      if name !in colMap {
        name := orderBy[k].name;
        if name !in colMap {
          return None;
        }
        LowerTwice(columns[colMap[name]]);
      }
      keys := keys + [Key(colMap[name], orderBy[k].dir)];
    }
    KeysResolve(columns, orderBy, keys);
    return Some(keys);
  }

  /** `applyLimitOffset` on 64-bit integers: `start + limit` may wrap around, and then the slice
      expression is out of range. It is exactly right as long as the sum fits. */
  method ApplyLimitOffset(rows: seq<Row>, offset: nat, limit: int) returns (r: Option<seq<Row>>)
    requires IsInt64(offset) && IsInt64(limit) && IsInt64(|rows|)
    ensures r.Some? <==> limit < 0 || IsInt64((if offset > |rows| then |rows| else offset) + limit)
    ensures r.Some? ==> r.value == Slice(rows, offset, if limit < 0 then None else Some(limit))
    ensures r.Some? ==>
              var skip := if offset < |rows| then offset else |rows|;
              && |r.value| == (if 0 <= limit < |rows| - skip then limit else |rows| - skip)
              && forall i | 0 <= i < |r.value| :: r.value[i] == rows[skip + i]
  {
    var n := |rows|;
    var start := offset;
    if start > n {
      start := n;
    }
    var end := n;
    if limit >= 0 {
      end := Aggregates.Wrap64(start + limit);
      if end > n {
        end := n;
      }
    }
    if start <= end {
      r := Some(rows[start..end]);
    } else {
      r := None;
    }
  }

  ghost predicate Width(rows: seq<Row>, n: nat) {
    forall r | r in rows :: |r| == n
  }

  ghost function Base(p: Plan, rows: seq<Row>): (out: seq<Row>) {
    if p.distinct then DedupByKey(rows) else rows
  }

  function Clip(n: nat, offset: nat): (start: nat) {
    if offset > n then n else offset
  }

  /** The second half of `sortRows`: quicksort in place. */
  method SortRows(rows: seq<Row>, keys: seq<Key>) returns (out: seq<Row>)
    requires QuickSort.EachWide(keys, rows)
    ensures multiset(out) == multiset(rows) && QuickSort.EachWide(keys, out)
    ensures QuickSort.Homogeneous(keys, rows) ==> QuickSort.Sorted(keys, out, 0, |out|)
    ensures QuickSort.Homogeneous(keys, rows) && keys != [] ==> QuickSort.InOrder(keys[0], out)
  {
    hide QuickSort.EachWide, QuickSort.Homogeneous, QuickSort.Sorted, QuickSort.InOrder;
    var a := new Row[|rows|](i requires 0 <= i < |rows| => rows[i]);
    assert a[..] == rows;
    QuickSort.Sort(a, keys);
    out := a[..];
  }

  lemma KeysWide(columns: seq<string>, orderBy: seq<OrderColumn>, keys: seq<Key>, rows: seq<Row>)
    requires KeysFor(columns, orderBy, keys) && Width(rows, |columns|)
    ensures QuickSort.EachWide(keys, rows)
  {
  }

  lemma {:induction false} KeyedSubset(rows: seq<Row>)
    ensures forall r | r in DedupByKey(rows) :: r in rows
    decreases |rows|
  {
    hide RowKey;
    if rows != [] {
      KeyedSubset(rows[..|rows| - 1]);
    }
  }

  /** `MergeScatterResponses` without aggregates, on the rows of all shards: remove duplicates, sort
      (only if there is something to sort), cut. */
  method MergeRows(p: Plan, columns: seq<string>, all: seq<Row>)
    returns (r: MergeResult, ghost keys: seq<Key>, ghost arr: seq<Row>)
    requires Width(all, |columns|) && IsInt64(|all|) && IsInt64(p.limit) && 0 <= p.offset && IsInt64(p.offset)
    ensures r.MissingColumn? <==> p.orderBy != [] && |Base(p, all)| > 1 && !Resolves(columns, p.orderBy)
    ensures r.SliceOutOfRange? <==>
              !r.MissingColumn? && p.limit >= 0 && !IsInt64(Clip(|Base(p, all)|, p.offset) + p.limit)
    ensures multiset(arr) == multiset(Base(p, all))
    ensures !r.MissingColumn? && p.orderBy != [] && |Base(p, all)| > 1 ==>
              && KeysFor(columns, p.orderBy, keys) && QuickSort.EachWide(keys, arr)
              && (QuickSort.Homogeneous(keys, Base(p, all)) ==> QuickSort.Sorted(keys, arr, 0, |arr|))
    ensures r.Merged? ==> r.rows == Cut(p, arr)
    ensures r.Merged? ==>
              var skip := if p.offset < |arr| then p.offset else |arr|;
              && |r.rows| == (if 0 <= p.limit < |arr| - skip then p.limit else |arr| - skip)
              && forall i | 0 <= i < |r.rows| :: r.rows[i] == arr[skip + i]
  {
    hide QuickSort.EachWide, QuickSort.Homogeneous, QuickSort.Sorted, KeysFor, Resolves, Base, Slice, Cut, Width;
    BaseShorter(p, all);
    var rows;
    rows, keys := ArrangeRows(p, columns, all);
    if rows.None? {
      return MissingColumn, keys, Base(p, all);
    }
    arr := rows.value;
    CutInNumbers(p, arr);
    if p.limit >= 0 || p.offset > 0 {
      var cut := ApplyLimitOffset(rows.value, p.offset, p.limit);
      if cut.None? {
        return SliceOutOfRange, keys, arr;
      }
      return Merged(cut.value), keys, arr;
    }
    return Merged(rows.value), keys, arr;
  }

  /** Remove duplicates, then sort if there is something to sort. */
  method ArrangeRows(p: Plan, columns: seq<string>, all: seq<Row>) returns (out: Option<seq<Row>>, ghost keys: seq<Key>)
    requires Width(all, |columns|)
    ensures out.None? <==> p.orderBy != [] && |Base(p, all)| > 1 && !Resolves(columns, p.orderBy)
    ensures out.Some? ==> multiset(out.value) == multiset(Base(p, all)) && |out.value| == |Base(p, all)|
    ensures out.Some? && p.orderBy != [] && |Base(p, all)| > 1 ==>
              && KeysFor(columns, p.orderBy, keys) && QuickSort.EachWide(keys, out.value)
              && (QuickSort.Homogeneous(keys, Base(p, all)) ==> QuickSort.Sorted(keys, out.value, 0, |out.value|))
  {
    hide QuickSort.EachWide, QuickSort.Homogeneous, QuickSort.Sorted, QuickSort.InOrder, KeysFor, Resolves, DedupByKey;
    keys := [];
    var rows := all;
    if p.distinct {
      rows := ApplyDistinct(rows);
      KeyedSubset(all);
    }
    if p.orderBy != [] && |rows| > 1 {
      var ks := ResolveOrder(columns, p.orderBy);
      if ks.None? {
        return None, keys;
      }
      keys := ks.value;
      KeysWide(columns, p.orderBy, keys, rows);
      var sorted := SortRows(rows, ks.value);
      SameElements(sorted, rows);
      return Some(sorted), keys;
    }
    return Some(rows), keys;
  }

  lemma BaseShorter(p: Plan, all: seq<Row>)
    ensures |Base(p, all)| <= |all|
  {
    KeyedShorter(all);
  }

  lemma CutInNumbers(p: Plan, arr: seq<Row>)
    requires 0 <= p.offset
    ensures var out, skip := Cut(p, arr), if p.offset < |arr| then p.offset else |arr|;
            && |out| == (if 0 <= p.limit < |arr| - skip then p.limit else |arr| - skip)
            && forall i | 0 <= i < |out| :: out[i] == arr[skip + i]
    ensures p.limit < 0 && p.offset == 0 ==> Cut(p, arr) == arr
    ensures Cut(p, arr) == Slice(arr, p.offset, if p.limit < 0 then None else Some(p.limit))
  {
    SliceInNumbers(arr, p.offset, if p.limit < 0 then None else Some(p.limit));
  }

  lemma {:induction false} KeyedShorter(rows: seq<Row>)
    ensures |DedupByKey(rows)| <= |rows|
    decreases |rows|
  {
    if rows != [] {
      KeyedShorter(rows[..|rows| - 1]);
    }
  }

  // ----- scatter preserves meaning -----

  lemma {:induction false} ProjectConcat(columns: seq<string>, s: seq<Record>, t: seq<Record>)
    ensures ProjectAll(columns, s + t) == ProjectAll(columns, s) + ProjectAll(columns, t)
  {
  }

  ghost function Selected(q: Query, recs: seq<Record>): (rows: seq<Row>)
    ensures Width(rows, |q.columns|)
  {
    ProjectAll(q.columns, Filter(q.where, recs))
  }

  /** Whatever order each shard answers in, together they answer the rows of all shards. */
  lemma {:induction false} ShardsTogether(q: Query, shards: seq<seq<Record>>, answers: seq<seq<Row>>)
    requires |answers| == |shards|
    requires forall i | 0 <= i < |shards| :: multiset(answers[i]) == multiset(Selected(q, shards[i]))
    ensures multiset(Flatten(answers)) == multiset(Selected(q, Flatten(shards)))
    decreases |shards|
  {
    if shards != [] {
      var n := |shards| - 1;
      var init, last := Flatten(shards[..n]), shards[n];
      ShardsTogether(q, shards[..n], answers[..n]);
      FilterConcat(q.where, init, last);
      ProjectConcat(q.columns, Filter(q.where, init), Filter(q.where, last));
      assert Flatten(answers) == Flatten(answers[..n]) + answers[n];
    }
  }

  /** A shard's answer to a query with nothing to arrange is some order of its rows. */
  lemma PlainAnswer(q: Query, recs: seq<Record>, out: seq<Row>)
    requires IsAnswer(q, recs, out) && !q.distinct && OffsetOf(q) == 0 && q.limit.None?
    ensures multiset(out) == multiset(Selected(q, recs))
  {
    var keys, arr :| Arranged(q, recs, keys, arr) && out == Slice(arr, OffsetOf(q), ValueOf(q.limit));
    assert out == arr;
  }

  /** The planner knows the numbers of the query: they are literals, or expressions worth 0. */
  predicate KnownNumber(e: Option<IntExpr>) {
    e.Some? && e.value.Computed? ==> e.value.value == 0
  }

  predicate ExactNumbers(q: Query) {
    KnownNumber(q.limit) && KnownNumber(q.offset)
  }

  /** What the merge cuts out of an arrangement. */
  function Cut(p: Plan, arr: seq<Row>): (out: seq<Row>)
    requires 0 <= p.offset
  {
    Slice(arr, p.offset, if p.limit < 0 then None else Some(p.limit))
  }

  /** Cutting a number at the greatest 64-bit integer does not matter: there are no more rows than that. */
  lemma CutIsSlice(q: Query, arr: seq<Row>)
    requires ExactNumbers(q) && IsInt64(|arr|)
    ensures Cut(ExtractPlan(q), arr) == Slice(arr, OffsetOf(q), ValueOf(q.limit))
  {
  }

  predicate Sorts(orderBy: seq<OrderColumn>, name: string) {
    exists k | 0 <= k < |orderBy| :: Lower(orderBy[k].name) == Lower(name)
  }

  /** Every column that ORDER BY names holds numbers or NULL only, or text or NULL only. */
  ghost predicate HomogeneousColumns(rows: seq<Row>, columns: seq<string>, orderBy: seq<OrderColumn>)
    requires Width(rows, |columns|)
  {
    forall r, s, c: nat | r in rows && s in rows && c < |columns| && Sorts(orderBy, columns[c]) :: Alike(r[c], s[c])
  }

  /** The queries and data for which scatter and merge preserve meaning: the planner sees the numbers
      of the query, an OFFSET does not stand alone, ORDER BY names result columns, sorted columns
      are homogeneous, and DISTINCT tells the rows apart by their keys. */
  ghost predicate InDomain(q: Query, recs: seq<Record>) {
    && ExactNumbers(q) && (NeedsMerge(ExtractPlan(q)) || OffsetOf(q) == 0)
    && Resolves(q.columns, q.orderBy)
    && HomogeneousColumns(Selected(q, recs), q.columns, q.orderBy)
    && (q.distinct ==> FaithfulKeys(Selected(q, recs)))
  }

  /** The gate's DISTINCT over the shards' rows keeps the rows a single node would keep. */
  lemma BaseMatches(q: Query, recs: seq<Record>, all: seq<Row>)
    requires InDomain(q, recs) && multiset(all) == multiset(Selected(q, recs))
    ensures multiset(Base(ExtractPlan(q), all)) == multiset(ResultRows(q, recs))
  {
    hide DedupByKey, RowKey, Dedup;
    if q.distinct {
      SameElements(all, Selected(q, recs));
      forall i, j | 0 <= i < |all| && 0 <= j < |all| && RowKey(all[i]) == RowKey(all[j]) ensures all[i] == all[j] {
        assert all[i] in Selected(q, recs) && all[j] in Selected(q, recs);
      }
      FaithfulIsDistinct(all);
      DedupArrangement(all, Selected(q, recs));
    }
  }

  lemma SortableRows(q: Query, recs: seq<Record>, base: seq<Row>, keys: seq<Key>)
    requires HomogeneousColumns(Selected(q, recs), q.columns, q.orderBy) && KeysFor(q.columns, q.orderBy, keys)
    requires multiset(base) == multiset(ResultRows(q, recs))
    ensures QuickSort.Homogeneous(keys, base)
  {
    SameElements(base, ResultRows(q, recs));
    DedupElements(Selected(q, recs));
    forall i | 0 <= i < |base| ensures base[i] in Selected(q, recs) {
      assert base[i] in base;
    }
    KeysWide(q.columns, q.orderBy, keys, base);
    forall k | 0 <= k < |keys| ensures Sorts(q.orderBy, q.columns[keys[k].idx]) {
      assert Lower(q.orderBy[k].name) == Lower(q.columns[keys[k].idx]);
    }
  }

  lemma ChooseKeys(columns: seq<string>, orderBy: seq<OrderColumn>) returns (keys: seq<Key>)
    requires Resolves(columns, orderBy)
    ensures KeysFor(columns, orderBy, keys)
  {
    hide Lower;
    keys := [];
    for k := 0 to |orderBy|
      invariant |keys| == k && KeysFor(columns, orderBy[..k], keys)
    {
      var i :| 0 <= i < |columns| && Lower(columns[i]) == Lower(orderBy[k].name);
      keys := keys + [Key(i, orderBy[k].dir)];
    }
    assert orderBy[..|orderBy|] == orderBy;
  }

  /** The loop over the targets: results are appended in the order of the targets. */
  method Gather(answers: seq<seq<Row>>) returns (all: seq<Row>)
    ensures all == Flatten(answers)
  {
    all := [];
    for i := 0 to |answers|
      invariant all == Flatten(answers[..i])
    {
      assert answers[..i + 1][..i] == answers[..i];
      all := all + answers[i];
    }
    assert answers[..|answers|] == answers;
  }

  /** A scatter SELECT at the gate, from the shards' answers to the query they were sent. In the
      domain, whatever it returns is a correct answer of one node that holds the rows of all shards;
      the only failures are a cut beyond 64 bits. A LIMIT that is not a literal yields no rows. */
  method ScatterSelect(q: Query, answers: seq<seq<Row>>, ghost shards: seq<seq<Record>>) returns (r: MergeResult)
    requires |answers| == |shards| && forall i | 0 <= i < |shards| :: IsAnswer(ShardQuery(q), shards[i], answers[i])
    requires IsInt64(|Flatten(answers)|)
    ensures InDomain(q, Flatten(shards)) ==> IsRight(q, Flatten(shards), r)
    ensures InDomain(q, Flatten(shards)) && r.Merged? ==> InNumbers(q, Flatten(shards), r.rows)
    ensures q.limit.Some? && q.limit.value.Computed? && r.Merged? ==> r.rows == []
  {
    hide IsAnswer, InDomain, IsRight, Resolves, KeysFor, QuickSort.EachWide, QuickSort.Homogeneous, QuickSort.Sorted,
         DedupByKey, Base, Cut, Width, Selected, ExtractPlan, Flatten, ShardQuery, InNumbers;
    ghost var recs := Flatten(shards);
    var p := ExtractPlan(q);
    PlanFacts(q);
    var all := Gather(answers);
    AnswersWide(q, answers, shards);
    if NeedsMerge(p) {
      ghost var keys, arr;
      r, keys, arr := MergeRows(p, q.columns, all);
      if r.Merged? && p.limit == 0 {
        CutNothing(p, arr);
      }
      if InDomain(q, recs) {
        GatheredRows(q, answers, shards);
        MergedIsRight(q, recs, all, keys, arr, r);
      }
    } else {
      r := Merged(all);
      if InDomain(q, recs) {
        GatheredRows(q, answers, shards);
        UnmergedIsAnswer(q, recs, all);
        UnmergedIsRight(q, recs, all);
      }
    }
    if InDomain(q, recs) && r.Merged? {
      RightInNumbers(q, recs, r);
    }
  }

  lemma RightInNumbers(q: Query, recs: seq<Record>, r: MergeResult)
    requires IsRight(q, recs, r) && r.Merged?
    ensures InNumbers(q, recs, r.rows)
  {
    hide IsAnswer, InNumbers;
    AnswerInNumbers(q, recs, r.rows);
  }

  lemma PlanFacts(q: Query)
    ensures var p := ExtractPlan(q); IsInt64(p.limit) && 0 <= p.offset && IsInt64(p.offset)
    ensures q.limit.Some? && q.limit.value.Computed? ==> ExtractPlan(q).limit == 0
  {
  }

  lemma CutNothing(p: Plan, arr: seq<Row>)
    requires 0 <= p.offset && p.limit == 0
    ensures Cut(p, arr) == []
  {
  }

  /** A correct answer of one node that holds all rows; the only failure is a cut beyond 64 bits. */
  ghost predicate IsRight(q: Query, recs: seq<Record>, r: MergeResult) {
    match r
    case Merged(rows) => IsAnswer(q, recs, rows)
    case MissingColumn => false
    case SliceOutOfRange => q.limit.Some? && !IsInt64(OffsetOf(q) + ValueOf(q.limit).value)
  }

  lemma UnmergedIsRight(q: Query, recs: seq<Record>, all: seq<Row>)
    requires IsAnswer(q, recs, all)
    ensures IsRight(q, recs, Merged(all))
  {
    hide IsAnswer;
  }

  lemma MergedIsRight(q: Query, recs: seq<Record>, all: seq<Row>, keys: seq<Key>, arr: seq<Row>, r: MergeResult)
    requires InDomain(q, recs) && multiset(all) == multiset(Selected(q, recs)) && IsInt64(|all|)
    requires var p := ExtractPlan(q);
             && (r.MissingColumn? <==> p.orderBy != [] && |Base(p, all)| > 1 && !Resolves(q.columns, p.orderBy))
             && (r.SliceOutOfRange? <==>
                   !r.MissingColumn? && p.limit >= 0 && !IsInt64(Clip(|Base(p, all)|, p.offset) + p.limit))
             && multiset(arr) == multiset(Base(p, all))
             && (!r.MissingColumn? && p.orderBy != [] && |Base(p, all)| > 1 ==>
                   && KeysFor(q.columns, p.orderBy, keys) && QuickSort.EachWide(keys, arr)
                   && (QuickSort.Homogeneous(keys, Base(p, all)) ==> QuickSort.Sorted(keys, arr, 0, |arr|)))
             && (r.Merged? ==> r.rows == Cut(p, arr))
    ensures IsRight(q, recs, r)
  {
    hide IsAnswer, InDomain, Resolves, KeysFor, QuickSort.EachWide, QuickSort.Homogeneous, QuickSort.Sorted, DedupByKey;
    DomainNumbers(q, recs, |Base(ExtractPlan(q), all)|);
    MergedIsAnswer(q, recs, all, keys, arr, r);
  }

  lemma AnswerWide(q: Query, recs: seq<Record>, out: seq<Row>)
    requires IsAnswer(q, recs, out)
    ensures Width(out, |q.columns|)
  {
    var keys, arr :| Arranged(q, recs, keys, arr) && out == Slice(arr, OffsetOf(q), ValueOf(q.limit));
    SameElements(arr, ResultRows(q, recs));
  }

  lemma AnswersWide(q: Query, answers: seq<seq<Row>>, shards: seq<seq<Record>>)
    requires |answers| == |shards| && forall i | 0 <= i < |shards| :: IsAnswer(ShardQuery(q), shards[i], answers[i])
    ensures Width(Flatten(answers), |q.columns|)
  {
    hide IsAnswer;
    forall r | r in Flatten(answers) ensures |r| == |q.columns| {
      InFlatten(answers, r);
      var i :| 0 <= i < |answers| && r in answers[i];
      AnswerWide(ShardQuery(q), shards[i], answers[i]);
    }
  }

  lemma DomainNumbers(q: Query, recs: seq<Record>, n: nat)
    requires InDomain(q, recs)
    ensures var p := ExtractPlan(q);
            && Resolves(q.columns, p.orderBy)
            && (p.limit >= 0 && !IsInt64(Clip(n, p.offset) + p.limit) ==>
                  q.limit.Some? && !IsInt64(OffsetOf(q) + ValueOf(q.limit).value))
  {
  }

  lemma GatheredRows(q: Query, answers: seq<seq<Row>>, shards: seq<seq<Record>>)
    requires |answers| == |shards| && forall i | 0 <= i < |shards| :: IsAnswer(ShardQuery(q), shards[i], answers[i])
    requires InDomain(q, Flatten(shards))
    ensures multiset(Flatten(answers)) == multiset(Selected(q, Flatten(shards)))
  {
    hide IsAnswer;
    forall i | 0 <= i < |shards| ensures multiset(answers[i]) == multiset(Selected(q, shards[i])) {
      PlainAnswer(ShardQuery(q), shards[i], answers[i]);
    }
    ShardsTogether(q, shards, answers);
  }

  lemma UnmergedIsAnswer(q: Query, recs: seq<Record>, all: seq<Row>)
    requires InDomain(q, recs) && !NeedsMerge(ExtractPlan(q)) && multiset(all) == multiset(Selected(q, recs))
    ensures IsAnswer(q, recs, all)
  {
    assert Arranged(q, recs, [], all);
    assert Slice(all, 0, None) == all;
  }

  lemma MergedIsAnswer(q: Query, recs: seq<Record>, all: seq<Row>, keys: seq<Key>, arr: seq<Row>, r: MergeResult)
    requires InDomain(q, recs) && multiset(all) == multiset(Selected(q, recs)) && IsInt64(|all|)
    requires var p := ExtractPlan(q);
             && multiset(arr) == multiset(Base(p, all))
             && (!r.MissingColumn? && p.orderBy != [] && |Base(p, all)| > 1 ==>
                   && KeysFor(q.columns, p.orderBy, keys) && QuickSort.EachWide(keys, arr)
                   && (QuickSort.Homogeneous(keys, Base(p, all)) ==> QuickSort.Sorted(keys, arr, 0, |arr|)))
             && (r.Merged? ==> r.rows == Cut(p, arr))
    ensures r.Merged? ==> IsAnswer(q, recs, r.rows)
  {
    hide QuickSort.Homogeneous, DedupByKey, Dedup;
    var p := ExtractPlan(q);
    BaseMatches(q, recs, all);
    KeyedShorter(all);
    SameElements(arr, Base(p, all));
    CutIsSlice(q, arr);
    if r.Merged? {
      if p.orderBy != [] && |Base(p, all)| > 1 {
        SortableRows(q, recs, Base(p, all), keys);
        assert Arranged(q, recs, keys, arr);
      } else {
        var ks := ChooseKeys(q.columns, q.orderBy);
        SameElements(arr, ResultRows(q, recs));
        KeysWide(q.columns, q.orderBy, ks, arr);
        assert QuickSort.Sorted(ks, arr, 0, |arr|);
        assert Arranged(q, recs, ks, arr);
      }
    }
  }

  // ----- when the answer is unique, and when it is wrong -----

  /** No two rows of the result agree on all ORDER BY columns. */
  ghost predicate NoTies(keys: seq<Key>, rows: seq<Row>)
    requires QuickSort.EachWide(keys, rows)
  {
    forall i, j | 0 <= i < j < |rows| :: RowLess(keys, rows[i], rows[j]) || RowLess(keys, rows[j], rows[i])
  }

  lemma SameHead(keys: seq<Key>, s: seq<Row>, t: seq<Row>)
    requires QuickSort.EachWide(keys, s) && QuickSort.EachWide(keys, t) && multiset(s) == multiset(t) && s != []
    requires t != []
    requires QuickSort.Sorted(keys, s, 0, |s|) && QuickSort.Sorted(keys, t, 0, |t|) && NoTies(keys, s)
    ensures s[0] == t[0]
  {
    hide RowLess, Wide;
    SameElements(s, t);
    assert t[0] in s && s[0] in t;
    var i :| 0 <= i < |s| && s[i] == t[0];
    var j :| 0 <= j < |t| && t[j] == s[0];
  }

  lemma SameTail(s: seq<Row>, t: seq<Row>)
    requires s != [] && t != [] && s[0] == t[0] && multiset(s) == multiset(t)
    ensures multiset(s[1..]) == multiset(t[1..])
  {
    assert s == [s[0]] + s[1..] && t == [t[0]] + t[1..];
    assert multiset(s[1..]) == multiset(s) - multiset{s[0]};
    assert multiset(t[1..]) == multiset(t) - multiset{t[0]};
  }

  /** Two sorted arrangements of the same rows without ties are the same. */
  lemma {:induction false} SortedUnique(keys: seq<Key>, s: seq<Row>, t: seq<Row>)
    requires QuickSort.EachWide(keys, s) && QuickSort.EachWide(keys, t) && multiset(s) == multiset(t)
    requires QuickSort.Sorted(keys, s, 0, |s|) && QuickSort.Sorted(keys, t, 0, |t|) && NoTies(keys, s)
    ensures s == t
    decreases |s|
  {
    hide RowLess, Wide;
    SameElements(s, t);
    if s != [] {
      SameHead(keys, s, t);
      SameTail(s, t);
      SortedUnique(keys, s[1..], t[1..]);
      assert s == [s[0]] + s[1..] && t == [t[0]] + t[1..];
    }
  }

  predicate DistinctNames(columns: seq<string>) {
    forall i, j | 0 <= i < j < |columns| :: Lower(columns[i]) != Lower(columns[j])
  }

  /** With ORDER BY columns that tell all result rows apart, a query has one answer: so what the gate
      returns for a scatter is what one node would have returned, row for row. */
  lemma AnswerUnique(q: Query, recs: seq<Record>, out: seq<Row>, out': seq<Row>, keys: seq<Key>)
    requires IsAnswer(q, recs, out) && IsAnswer(q, recs, out')
    requires DistinctNames(q.columns) && KeysFor(q.columns, q.orderBy, keys)
    requires QuickSort.EachWide(keys, ResultRows(q, recs)) && NoTies(keys, ResultRows(q, recs))
    ensures out == out'
  {
    hide RowLess;
    var ks, arr :| Arranged(q, recs, ks, arr) && out == Slice(arr, OffsetOf(q), ValueOf(q.limit));
    var ks', arr' :| Arranged(q, recs, ks', arr') && out' == Slice(arr', OffsetOf(q), ValueOf(q.limit));
    SameKeys(q, ks, keys);
    SameKeys(q, ks', keys);
    NoTiesArranged(keys, ResultRows(q, recs), arr);
    SortedUnique(keys, arr, arr');
  }

  lemma SameKeys(q: Query, ks: seq<Key>, keys: seq<Key>)
    requires DistinctNames(q.columns) && KeysFor(q.columns, q.orderBy, ks) && KeysFor(q.columns, q.orderBy, keys)
    ensures ks == keys
  {
    hide Lower;
    forall k | 0 <= k < |keys| ensures ks[k] == keys[k] {
      assert Lower(q.columns[ks[k].idx]) == Lower(q.columns[keys[k].idx]);
    }
  }

  /** Whether rows tie does not depend on how they are arranged. */
  lemma NoTiesArranged(keys: seq<Key>, s: seq<Row>, t: seq<Row>)
    requires QuickSort.EachWide(keys, s) && QuickSort.EachWide(keys, t) && multiset(s) == multiset(t) && NoTies(keys, s)
    ensures NoTies(keys, t)
  {
    hide RowLess, Wide;
    SameElements(s, t);
    forall i, j | 0 <= i < j < |t| ensures RowLess(keys, t[i], t[j]) || RowLess(keys, t[j], t[i]) {
      assert t[i] in s && t[j] in s;
      var k :| 0 <= k < |s| && s[k] == t[i];
      var l :| 0 <= l < |s| && s[l] == t[j];
      if k == l {
        TwiceIn(t, i, j);
        TwiceOut(s, t[i]);
        var m, n :| 0 <= m < n < |s| && s[m] == t[i] && s[n] == t[i];
      }
    }
  }

  lemma TwiceIn(t: seq<Row>, i: nat, j: nat)
    requires i < j < |t| && t[i] == t[j]
    ensures multiset(t)[t[i]] >= 2
  {
    assert t == t[..j] + [t[j]] + t[j + 1..];
    assert t[..j][i] == t[i] && t[i] in multiset(t[..j]);
  }

  lemma {:induction false} TwiceOut(s: seq<Row>, r: Row)
    requires multiset(s)[r] >= 2
    ensures exists m, n :: 0 <= m < n < |s| && s[m] == r && s[n] == r
    decreases |s|
  {
    var init, last := s[..|s| - 1], s[|s| - 1];
    assert s == init + [last];
    if last == r {
      assert r in multiset(init);
      var m :| 0 <= m < |init| && init[m] == r;
      assert s[m] == r && s[|s| - 1] == r;
    } else {
      TwiceOut(init, r);
      var m, n :| 0 <= m < n < |init| && init[m] == r && init[n] == r;
      assert s[m] == r && s[n] == r;
    }
  }

  /** An OFFSET on its own is stripped from the shard query and never re-applied: the gate returns all
      rows. So for such a query the answer is right exactly when no row matches. */
  lemma OffsetAloneIsLost(q: Query, shards: seq<seq<Record>>, answers: seq<seq<Row>>)
    requires ExactNumbers(q) && !NeedsMerge(ExtractPlan(q)) && OffsetOf(q) > 0
    requires |answers| == |shards| && forall i | 0 <= i < |shards| :: IsAnswer(ShardQuery(q), shards[i], answers[i])
    ensures IsAnswer(q, Flatten(shards), Flatten(answers)) <==> Filter(q.where, Flatten(shards)) == []
  {
    hide IsAnswer, Filter, Arranged;
    var recs, all := Flatten(shards), Flatten(answers);
    forall i | 0 <= i < |shards| ensures multiset(answers[i]) == multiset(Selected(q, shards[i])) {
      PlainAnswer(ShardQuery(q), shards[i], answers[i]);
    }
    ShardsTogether(q, shards, answers);
    SameElements(all, Selected(q, recs));
    if IsAnswer(q, recs, all) {
      var keys, arr := AnswerOf(q, recs, all);
    }
    if all == [] {
      NothingToSort(q, recs, all);
      EmptyIsAnswer(q, recs, []);
    }
  }

  lemma EmptyIsAnswer(q: Query, recs: seq<Record>, keys: seq<Key>)
    requires Arranged(q, recs, keys, [])
    ensures IsAnswer(q, recs, [])
  {
    assert Slice([], OffsetOf(q), ValueOf(q.limit)) == [];
  }

  /** An answer comes from an arrangement of the result. */
  lemma AnswerOf(q: Query, recs: seq<Record>, out: seq<Row>) returns (keys: seq<Key>, arr: seq<Row>)
    requires IsAnswer(q, recs, out)
    ensures Arranged(q, recs, keys, arr) && out == Slice(arr, OffsetOf(q), ValueOf(q.limit))
    ensures |arr| == |ResultRows(q, recs)| && multiset(arr) == multiset(ResultRows(q, recs))
  {
    keys, arr :| Arranged(q, recs, keys, arr) && out == Slice(arr, OffsetOf(q), ValueOf(q.limit));
    hide Arranged, ResultRows, Slice;
    assert multiset(arr) == multiset(ResultRows(q, recs)) by { ArrangedSame(q, recs, keys, arr); }
    SameElements(arr, ResultRows(q, recs));
  }

  lemma ArrangedSame(q: Query, recs: seq<Record>, keys: seq<Key>, arr: seq<Row>)
    requires Arranged(q, recs, keys, arr)
    ensures multiset(arr) == multiset(ResultRows(q, recs)) && |arr| == |ResultRows(q, recs)|
  {
    SameElements(arr, ResultRows(q, recs));
  }

  /** The query has an answer at all: its result can be arranged as ORDER BY asks. */
  ghost predicate Answerable(q: Query, recs: seq<Record>) {
    exists keys, arr :: Arranged(q, recs, keys, arr)
  }

  /** A LIMIT that is an expression counts as 0, so the gate returns no rows (`ScatterSelect`). For an
      expression worth `v` this is an answer of the query exactly if `v` is 0 or the offset skips
      everything. */
  lemma ComputedLimitIff(q: Query, recs: seq<Record>, v: nat)
    requires q.limit == Some(Computed(v)) && Answerable(q, recs)
    ensures IsAnswer(q, recs, []) <==> v == 0 || |ResultRows(q, recs)| <= OffsetOf(q)
  {
    hide Arranged, ResultRows, Slice, IsAnswer;
    if IsAnswer(q, recs, []) {
      var keys, arr := AnswerOf(q, recs, []);
      SliceInNumbers(arr, OffsetOf(q), Some(v));
    }
    if v == 0 || |ResultRows(q, recs)| <= OffsetOf(q) {
      var keys, arr :| Arranged(q, recs, keys, arr);
      ArrangedSame(q, recs, keys, arr);
      SliceInNumbers(arr, OffsetOf(q), Some(v));
      assert [] == Slice(arr, OffsetOf(q), ValueOf(q.limit));
      IsAnswerOf(q, recs, keys, arr);
    }
  }

  /** An OFFSET that is an expression worth more than 0 counts as 0, so the merge cuts at the front. That
      can only be an answer if nothing was to be skipped or the LIMIT leaves enough rows behind; without
      rows, or with LIMIT 0, it is one. */
  lemma ComputedOffsetMisses(q: Query, recs: seq<Record>, v: nat, arr: seq<Row>, out: seq<Row>)
    requires q.offset == Some(Computed(v)) && v > 0 && multiset(arr) == multiset(ResultRows(q, recs))
    requires out == Slice(arr, ExtractPlan(q).offset, ValueOf(q.limit))
    ensures IsAnswer(q, recs, out) ==>
              || ResultRows(q, recs) == []
              || (q.limit.Some? && var n := ValueOf(q.limit).value; n == 0 || |ResultRows(q, recs)| >= v + n)
    ensures Answerable(q, recs) && (ResultRows(q, recs) == [] || ValueOf(q.limit) == Some(0)) ==> IsAnswer(q, recs, out)
  {
    hide Arranged, ResultRows, Slice, IsAnswer;
    SameElements(arr, ResultRows(q, recs));
    SliceInNumbers(arr, 0, ValueOf(q.limit));
    if IsAnswer(q, recs, out) {
      var keys, arr' := AnswerOf(q, recs, out);
      SliceInNumbers(arr', v, ValueOf(q.limit));
    }
    if Answerable(q, recs) && (ResultRows(q, recs) == [] || ValueOf(q.limit) == Some(0)) {
      var keys, arr' :| Arranged(q, recs, keys, arr');
      ArrangedSame(q, recs, keys, arr');
      SliceInNumbers(arr', v, ValueOf(q.limit));
      assert out == [] == Slice(arr', OffsetOf(q), ValueOf(q.limit));
      IsAnswerOf(q, recs, keys, arr');
    }
  }

  /** If ORDER BY tells all rows apart, what the merge returns for such an OFFSET is the answer exactly if
      there are no rows, or LIMIT is 0, or LIMIT is an expression too and the offset skips everything. */
  lemma ComputedOffsetIff(q: Query, recs: seq<Record>, v: nat, keys: seq<Key>, arr: seq<Row>)
    requires q.offset == Some(Computed(v)) && v > 0 && Arranged(q, recs, keys, arr) && DistinctNames(q.columns)
    requires QuickSort.EachWide(keys, ResultRows(q, recs)) && NoTies(keys, ResultRows(q, recs))
    ensures IsAnswer(q, recs, Cut(ExtractPlan(q), arr)) <==>
              || ResultRows(q, recs) == []
              || (q.limit.Some? && ValueOf(q.limit).value == 0)
              || (q.limit.Some? && q.limit.value.Computed? && |ResultRows(q, recs)| <= v)
  {
    hide RowLess, Wide, DistinctNames, KeysFor, ResultRows, Slice, IsAnswer, QuickSort.Sorted;
    var p := ExtractPlan(q);
    var front := if p.limit < 0 then None else Some(p.limit as nat);
    var out, ans := Slice(arr, 0, front), Slice(arr, v, ValueOf(q.limit));
    ArrangedSame(q, recs, keys, arr);
    NoTiesArranged(keys, ResultRows(q, recs), arr);
    assert IsAnswer(q, recs, ans) by { IsAnswerOf(q, recs, keys, arr); }
    if v < |arr| {
      QuickSort.RowIrrefl(keys, arr[0]);
      assert arr[0] != arr[v];
    }
    FrontOrLater(arr, v, front, ValueOf(q.limit));
    if IsAnswer(q, recs, out) {
      AnswerUnique(q, recs, out, ans, keys);
    }
  }

  lemma IsAnswerOf(q: Query, recs: seq<Record>, keys: seq<Key>, arr: seq<Row>)
    requires Arranged(q, recs, keys, arr)
    ensures IsAnswer(q, recs, Slice(arr, OffsetOf(q), ValueOf(q.limit)))
  {
    hide Arranged, Slice;
  }

  /** Cuts that start with different rows agree only if both are empty. */
  lemma FrontOrLater(arr: seq<Row>, v: nat, front: Option<nat>, limit: Option<nat>)
    requires v > 0 && (v < |arr| ==> arr[0] != arr[v])
    ensures Slice(arr, 0, front) == Slice(arr, v, limit)
       <==> (arr == [] || front == Some(0)) && (|arr| <= v || limit == Some(0))
  {
    var s, t := Slice(arr, 0, front), Slice(arr, v, limit);
    assert s != [] ==> s[0] == arr[0];
    assert t != [] ==> t[0] == arr[v];
  }

  // ----- a computed OFFSET on its own -----

  function Min(m: nat, n: nat): (r: nat) {
    if m <= n then m else n
  }

  /** How many rows the shards skip, each up to `v` of its own. */
  function Skipped(where: Option<Expr>, shards: seq<seq<Record>>, v: nat): (n: nat) {
    if shards == [] then 0
    else Skipped(where, shards[..|shards| - 1], v) + Min(|Filter(where, shards[|shards| - 1])|, v)
  }

  predicate AtMostOneMatches(where: Option<Expr>, shards: seq<seq<Record>>) {
    forall i, j | 0 <= i < j < |shards| :: Filter(where, shards[i]) == [] || Filter(where, shards[j]) == []
  }

  predicate NoneMatches(where: Option<Expr>, shards: seq<seq<Record>>) {
    forall i | 0 <= i < |shards| :: Filter(where, shards[i]) == []
  }

  lemma MatchingGrows(where: Option<Expr>, shards: seq<seq<Record>>)
    requires shards != []
    ensures Filter(where, Flatten(shards))
         == Filter(where, Flatten(shards[..|shards| - 1])) + Filter(where, shards[|shards| - 1])
  {
    FilterConcat(where, Flatten(shards[..|shards| - 1]), shards[|shards| - 1]);
  }

  lemma NoneMatchesGrows(where: Option<Expr>, shards: seq<seq<Record>>)
    requires shards != []
    ensures NoneMatches(where, shards)
       <==> NoneMatches(where, shards[..|shards| - 1]) && Filter(where, shards[|shards| - 1]) == []
  {
    hide Filter;
    var init := shards[..|shards| - 1];
    assert forall i | 0 <= i < |init| :: init[i] == shards[i];
  }

  lemma {:induction false} MatchingTotal(where: Option<Expr>, shards: seq<seq<Record>>)
    ensures shards != [] ==>
              |Filter(where, Flatten(shards))|
              == |Filter(where, Flatten(shards[..|shards| - 1]))| + |Filter(where, shards[|shards| - 1])|
    ensures Filter(where, Flatten(shards)) == [] <==> NoneMatches(where, shards)
    decreases |shards|
  {
    if shards != [] {
      hide Filter, Flatten, NoneMatches;
      MatchingTotal(where, shards[..|shards| - 1]);
      MatchingGrows(where, shards);
      NoneMatchesGrows(where, shards);
    }
  }

  /** Together the shards skip as many rows as one node would, exactly if one of them does all the skipping
      or everything is skipped. */
  lemma {:induction false} SkippedIff(where: Option<Expr>, shards: seq<seq<Record>>, v: nat)
    ensures var n, d := |Filter(where, Flatten(shards))|, Skipped(where, shards, v);
            && (n <= v ==> d == n) && (n >= v ==> d >= v)
            && (d == Min(n, v) <==> v == 0 || n <= v || AtMostOneMatches(where, shards))
    decreases |shards|
  {
    hide Filter;
    MatchingTotal(where, shards);
    if shards != [] {
      var init, last := shards[..|shards| - 1], shards[|shards| - 1];
      assert forall i | 0 <= i < |init| :: init[i] == shards[i];
      SkippedIff(where, init, v);
      MatchingTotal(where, init);
      LastMatches(where, shards);
    }
  }

  lemma LastMatches(where: Option<Expr>, shards: seq<seq<Record>>)
    requires shards != []
    ensures AtMostOneMatches(where, shards)
       <==> if Filter(where, shards[|shards| - 1]) == [] then AtMostOneMatches(where, shards[..|shards| - 1])
            else NoneMatches(where, shards[..|shards| - 1])
  {
    hide Filter;
    var init, last := shards[..|shards| - 1], shards[|shards| - 1];
    assert forall i | 0 <= i < |init| :: init[i] == shards[i];
    assert AtMostOneMatches(where, shards) ==>
             forall i | 0 <= i < |init| :: Filter(where, shards[i]) == [] || Filter(where, shards[|init|]) == [];
  }

  /** One shard's answer, and the rows it skipped. */
  lemma SkipOne(q: Query, recs: seq<Record>, out: seq<Row>, v: nat) returns (skipped: seq<Row>)
    requires q.offset == Some(Computed(v)) && !q.distinct && q.limit.None? && IsAnswer(q, recs, out)
    ensures multiset(skipped + out) == multiset(Selected(q, recs)) && |skipped| == Min(|Filter(q.where, recs)|, v)
  {
    hide Arranged, IsAnswer, Filter;
    var keys, arr := AnswerOf(q, recs, out);
    skipped := arr[..Min(|arr|, v)];
    assert skipped + out == arr;
  }

  lemma {:induction false} SkipAll(q: Query, shards: seq<seq<Record>>, answers: seq<seq<Row>>, v: nat)
    returns (skipped: seq<Row>)
    requires q.offset == Some(Computed(v)) && !q.distinct && q.limit.None?
    requires |answers| == |shards| && forall i | 0 <= i < |shards| :: IsAnswer(q, shards[i], answers[i])
    ensures multiset(skipped + Flatten(answers)) == multiset(Selected(q, Flatten(shards)))
    ensures |skipped| == Skipped(q.where, shards, v)
    decreases |shards|
  {
    hide IsAnswer, Selected, Filter;
    if shards == [] {
      skipped := [];
      NothingSelected(q);
    } else {
      var n := |shards| - 1;
      var s := SkipAll(q, shards[..n], answers[..n], v);
      var t := SkipOne(q, shards[n], answers[n], v);
      SelectedGrows(q, shards);
      skipped := s + t;
      Shuffled(s, t, Flatten(answers[..n]), answers[n], Selected(q, Flatten(shards[..n])), Selected(q, shards[n]));
    }
  }

  lemma SelectedGrows(q: Query, shards: seq<seq<Record>>)
    requires shards != []
    ensures Selected(q, Flatten(shards))
              == Selected(q, Flatten(shards[..|shards| - 1])) + Selected(q, shards[|shards| - 1])
  {
    var init, last := Flatten(shards[..|shards| - 1]), shards[|shards| - 1];
    FilterConcat(q.where, init, last);
    ProjectConcat(q.columns, Filter(q.where, init), Filter(q.where, last));
  }

  lemma NothingSelected(q: Query)
    ensures Selected(q, []) == []
  {
  }

  lemma Shuffled(s: seq<Row>, t: seq<Row>, u: seq<Row>, w: seq<Row>, x: seq<Row>, y: seq<Row>)
    requires multiset(s + u) == multiset(x) && multiset(t + w) == multiset(y)
    ensures multiset(s + t + (u + w)) == multiset(x + y)
  {
    assert multiset(s + t + (u + w)) == multiset(s + u) + multiset(t + w);
  }

  /** A computed OFFSET with no ORDER BY, LIMIT or DISTINCT is not stripped: every shard skips rows of its own,
      and the gate appends the rest. That is an answer exactly if the expression is worth 0, or everything is
      skipped, or at most one shard has matching rows. */
  lemma ComputedOffsetAloneIff(q: Query, shards: seq<seq<Record>>, answers: seq<seq<Row>>, v: nat)
    requires q.offset == Some(Computed(v)) && !NeedsMerge(ExtractPlan(q))
    requires |answers| == |shards| && forall i | 0 <= i < |shards| :: IsAnswer(ShardQuery(q), shards[i], answers[i])
    ensures IsAnswer(q, Flatten(shards), Flatten(answers))
       <==> v == 0 || |Filter(q.where, Flatten(shards))| <= v || AtMostOneMatches(q.where, shards)
  {
    hide Filter, IsAnswer, Skipped, AtMostOneMatches;
    var recs, all := Flatten(shards), Flatten(answers);
    assert ShardQuery(q) == q;
    var skipped := SkipAll(q, shards, answers, v);
    SkippedIff(q.where, shards, v);
    SkippedIsAnswerIff(q, recs, skipped, all, v);
  }

  /** Appended to the skipped rows, the result is an arrangement: it is an answer if the number is right. */
  lemma SkippedIsAnswerIff(q: Query, recs: seq<Record>, skipped: seq<Row>, all: seq<Row>, v: nat)
    requires q.offset == Some(Computed(v)) && q.orderBy == [] && !q.distinct && q.limit.None?
    requires multiset(skipped + all) == multiset(Selected(q, recs))
    ensures IsAnswer(q, recs, all) <==> |skipped| == Min(|Filter(q.where, recs)|, v)
  {
    hide Filter;
    var arr := skipped + all;
    SameElements(arr, Selected(q, recs));
    if |skipped| == Min(|arr|, v) {
      NothingToSort(q, recs, arr);
      assert all == Slice(arr, OffsetOf(q), ValueOf(q.limit));
    }
    hide Arranged;
    if IsAnswer(q, recs, all) {
      var keys, arr' := AnswerOf(q, recs, all);
    }
  }

  lemma NothingToSort(q: Query, recs: seq<Record>, arr: seq<Row>)
    requires q.orderBy == [] && !q.distinct && multiset(arr) == multiset(Selected(q, recs))
    ensures Arranged(q, recs, [], arr)
  {
  }

  // ----- every query on homogeneous columns has an answer -----

  /** The place of a row in a sorted arrangement. */
  lemma Place(keys: seq<Key>, s: seq<Row>, r: Row) returns (i: nat)
    requires QuickSort.EachWide(keys, s) && Wide(keys, r)
    ensures i <= |s| && (forall j | 0 <= j < i :: !RowLess(keys, r, s[j])) && (i < |s| ==> RowLess(keys, r, s[i]))
  {
    hide RowLess, Wide;
    i := 0;
    while i < |s| && !RowLess(keys, r, s[i])
      invariant i <= |s| && forall j | 0 <= j < i :: !RowLess(keys, r, s[j])
    {
      i := i + 1;
    }
  }

  lemma RowsOfOne(keys: seq<Key>, s: seq<Row>, i: nat, j: nat)
    requires QuickSort.Homogeneous(keys, s) && i < |s| && j < |s|
    ensures Wide(keys, s[i]) && Wide(keys, s[j]) && RowsAlike(keys, s[i], s[j])
  {
  }

  lemma NotBetween(keys: seq<Key>, x: Row, r: Row, y: Row)
    requires Wide(keys, x) && Wide(keys, r) && Wide(keys, y)
    requires RowsAlike(keys, x, r) && RowsAlike(keys, r, y) && RowsAlike(keys, x, y)
    requires RowLess(keys, r, y) && !RowLess(keys, x, y)
    ensures !RowLess(keys, x, r)
  {
    hide RowLess, RowsAlike, Wide;
    RowTrans(keys, x, r, y);
  }

  lemma NotBefore(keys: seq<Key>, s: seq<Row>, r: Row, i: nat, k: nat)
    requires QuickSort.Homogeneous(keys, s + [r]) && QuickSort.EachWide(keys, s) && Wide(keys, r)
    requires QuickSort.Sorted(keys, s, 0, |s|)
    requires i <= k < |s| && RowLess(keys, r, s[i])
    ensures !RowLess(keys, s[k], r)
  {
    hide RowLess, Wide, RowsAlike, QuickSort.Homogeneous, QuickSort.Sorted;
    var all := s + [r];
    assert all[i] == s[i] && all[k] == s[k] && all[|s|] == r;
    RowsOfOne(keys, all, k, |s|);
    RowsOfOne(keys, all, |s|, i);
    RowsOfOne(keys, all, k, i);
    if i < k {
      StillSorted(keys, s, i, k);
      NotBetween(keys, s[k], r, s[i]);
    } else {
      RowAsym(keys, s[k], r);
    }
  }

  lemma InsertRow(keys: seq<Key>, s: seq<Row>, r: Row) returns (t: seq<Row>)
    requires QuickSort.Homogeneous(keys, s + [r]) && QuickSort.EachWide(keys, s) && Wide(keys, r)
    requires QuickSort.Sorted(keys, s, 0, |s|)
    ensures multiset(t) == multiset(s + [r]) && QuickSort.EachWide(keys, t) && QuickSort.Sorted(keys, t, 0, |t|)
  {
    hide QuickSort.Homogeneous, QuickSort.EachWide, QuickSort.Sorted, RowLess, Wide;
    var i := Place(keys, s, r);
    t := s[..i] + [r] + s[i..];
    assert s == s[..i] + s[i..];
    InsertedSorted(keys, s, r, i);
  }

  lemma InsertedSorted(keys: seq<Key>, s: seq<Row>, r: Row, i: nat)
    requires QuickSort.Homogeneous(keys, s + [r]) && QuickSort.EachWide(keys, s) && Wide(keys, r)
    requires QuickSort.Sorted(keys, s, 0, |s|)
    requires i <= |s| && (forall j | 0 <= j < i :: !RowLess(keys, r, s[j])) && (i < |s| ==> RowLess(keys, r, s[i]))
    ensures QuickSort.EachWide(keys, s[..i] + [r] + s[i..]) && QuickSort.Sorted(keys, s[..i] + [r] + s[i..], 0, |s| + 1)
  {
    hide RowLess, Wide, QuickSort.Homogeneous;
    var t := s[..i] + [r] + s[i..];
    forall x | 0 <= x < |t| ensures t[x] == if x < i then s[x] else if x == i then r else s[x - 1] {}
    hide QuickSort.Sorted;
    forall x, y | 0 <= x < y < |t| ensures !RowLess(keys, t[y], t[x]) {
      if x == i {
        NotBefore(keys, s, r, i, y - 1);
      } else if y != i {
        StillSorted(keys, s, if x < i then x else x - 1, if y < i then y else y - 1);
      }
    }
    assert QuickSort.Sorted(keys, t, 0, |t|) by { IsSorted(keys, t); }
  }

  lemma StillSorted(keys: seq<Key>, s: seq<Row>, x: nat, y: nat)
    requires QuickSort.EachWide(keys, s) && QuickSort.Sorted(keys, s, 0, |s|) && x < y < |s|
    ensures !RowLess(keys, s[y], s[x])
  {
  }

  lemma IsSorted(keys: seq<Key>, t: seq<Row>)
    requires QuickSort.EachWide(keys, t) && forall x, y | 0 <= x < y < |t| :: !RowLess(keys, t[y], t[x])
    ensures QuickSort.Sorted(keys, t, 0, |t|)
  {
  }

  lemma {:induction false} Arrange(keys: seq<Key>, rows: seq<Row>) returns (arr: seq<Row>)
    requires QuickSort.Homogeneous(keys, rows)
    ensures multiset(arr) == multiset(rows) && QuickSort.EachWide(keys, arr) && QuickSort.Sorted(keys, arr, 0, |arr|)
    decreases |rows|
  {
    hide RowLess, Wide;
    if rows == [] {
      arr := [];
    } else {
      var init, last := rows[..|rows| - 1], rows[|rows| - 1];
      assert rows == init + [last];
      var s := Arrange(keys, init);
      SameElements(s, init);
      HomogeneousAgain(keys, s + [last], rows);
      arr := InsertRow(keys, s, last);
    }
  }

  lemma HomogeneousAgain(keys: seq<Key>, s: seq<Row>, t: seq<Row>)
    requires QuickSort.Homogeneous(keys, t) && forall r | r in s :: r in t
    ensures QuickSort.Homogeneous(keys, s)
  {
    hide Wide, RowsAlike;
    assert forall i | 0 <= i < |s| :: s[i] in s && s[i] in t;
  }

  /** If ORDER BY names result columns that are homogeneous, one node has an answer. */
  lemma HasAnswer(q: Query, recs: seq<Record>)
    requires Resolves(q.columns, q.orderBy) && HomogeneousColumns(Selected(q, recs), q.columns, q.orderBy)
    ensures Answerable(q, recs)
  {
    var rows := ResultRows(q, recs);
    var keys := ChooseKeys(q.columns, q.orderBy);
    SortableRows(q, recs, rows, keys);
    var arr := Arrange(keys, rows);
    assert Arranged(q, recs, keys, arr);
  }
}
