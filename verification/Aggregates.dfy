/** Merging per-shard aggregates at the gate. */
module Aggregates {
  import opened Text
  import opened Cells
  import opened Lists

  datatype AggType = Count | Sum | Max | Min

  /** An aggregate over a column of the table, or COUNT(*). */
  datatype Aggregate = Aggregate(kind: AggType, column: Option<nat>)

  /** Rows that are too short have no value there, which every aggregate treats like NULL. */
  function CellAt(r: Row, idx: nat): (c: Cell) {
    if idx < |r| then r[idx] else Nil
  }

  function Column(rows: seq<Row>, idx: nat): (col: seq<Cell>)
    ensures |col| == |rows| && forall k | 0 <= k < |rows| :: col[k] == CellAt(rows[k], idx)
  {
    seq(|rows|, k requires 0 <= k < |rows| => CellAt(rows[k], idx))
  }

  // ----- what the aggregates mean -----

  predicate HasValue(col: seq<Cell>) {
    exists k | 0 <= k < |col| :: !col[k].Nil?
  }

  function CountValues(col: seq<Cell>): (n: nat) {
    if col == [] then 0 else CountValues(col[..|col| - 1]) + (if col[|col| - 1].Nil? then 0 else 1)
  }

  function IntOf(c: Cell): (i: int) {
    if c.Int? then c.i else 0
  }

  function SumInts(col: seq<Cell>): (n: int) {
    if col == [] then 0 else SumInts(col[..|col| - 1]) + IntOf(col[|col| - 1])
  }

  /** `m` is the greatest (least) value of the column, or NULL if it has none. */
  predicate IsExtreme(col: seq<Cell>, m: Cell, greatest: bool) {
    if !HasValue(col) then m.Nil?
    else m in col && !m.Nil? && forall v | v in col && !v.Nil? :: if greatest then !LessThan(m, v) else !LessThan(v, m)
  }

  /** `c` is the database's answer for aggregate `g` over `rows`. */
  predicate Answers(g: Aggregate, rows: seq<Row>, c: Cell) {
    match g.column
    case None => g.kind.Count? && c == Int(|rows|)
    case Some(idx) =>
      var col := Column(rows, idx);
      match g.kind
      case Count => c == Int(CountValues(col))
      case Sum => c == if HasValue(col) then Int(SumInts(col)) else Nil
      case Max => IsExtreme(col, c, true)
      case Min => IsExtreme(col, c, false)
  }

  function PlainSum(xs: seq<int>): (n: int) {
    if xs == [] then 0 else PlainSum(xs[..|xs| - 1]) + xs[|xs| - 1]
  }

  /** The sum of a column of numbers, negative ones included; a NULL adds nothing. */
  lemma {:induction false} SumInNumbers(col: seq<Cell>, xs: seq<int>)
    requires |xs| == |col| && forall k | 0 <= k < |col| :: col[k] == Int(xs[k]) || (col[k] == Nil && xs[k] == 0)
    ensures SumInts(col) == PlainSum(xs)
    decreases |col|
  {
    if col != [] {
      SumInNumbers(col[..|col| - 1], xs[..|xs| - 1]);
    }
  }

  /** The count of a column is the number of its positions that are not NULL. */
  lemma {:induction false} CountInNumbers(col: seq<Cell>)
    ensures CountValues(col) == |set k | 0 <= k < |col| && col[k] != Nil|
    decreases |col|
  {
    if col != [] {
      var n := |col| - 1;
      CountInNumbers(col[..n]);
      var some := set k | 0 <= k < n && col[..n][k] != Nil;
      var all := set k | 0 <= k < |col| && col[k] != Nil;
      assert all == if col[n] == Nil then some else some + {n};
    }
  }

  /** The greatest (least) value of a column of numbers is one of them, and none is greater (less). */
  lemma ExtremeInNumbers(col: seq<Cell>, m: Cell, greatest: bool)
    requires IsExtreme(col, m, greatest) && forall c | c in col :: c.Int? || c.Nil?
    ensures m.Nil? <==> forall c | c in col :: c.Nil?
    ensures m.Int? ==> m in col && forall x | Int(x) in col :: if greatest then x <= m.i else m.i <= x
  {
    if m.Nil? {
      forall c | c in col ensures c.Nil? {
        var k :| 0 <= k < |col| && col[k] == c;
      }
    } else {
      forall x | Int(x) in col ensures if greatest then x <= m.i else m.i <= x {
        var v := Int(x);
        assert v in col && !v.Nil?;
      }
    }
  }

  // ----- the gate's combining loops -----

  /** Addition of Go's int64 wraps around. */
  function Wrap64(n: int): (r: int)
    ensures IsInt64(r) && (IsInt64(n) <==> r == n)
  {
    (n - MIN_INT64) % 0x1_0000_0000_0000_0000 + MIN_INT64
  }

  /** The result differs by a multiple of two to the power of 64. */
  lemma WrapCongruent(n: int)
    ensures (n - Wrap64(n)) % 0x1_0000_0000_0000_0000 == 0
  {
  }

  lemma WrapAdd(m: int, n: int)
    ensures Wrap64(Wrap64(m) + n) == Wrap64(m + n)
  {
  }

  /** What a cell adds to a count: a text counts if it reads as a number. */
  function Addend(c: Cell): (i: int) {
    match c
    case Nil => 0
    case Int(i) => i
    case Str(s) => if ParseInt(s).Some? then ParseInt(s).value else 0
  }

  function Total(col: seq<Cell>): (n: int) {
    if col == [] then 0 else Total(col[..|col| - 1]) + Addend(col[|col| - 1])
  }

  method AggSumInt64(rows: seq<Row>, idx: nat) returns (sum: int)
    ensures sum == Wrap64(Total(Column(rows, idx)))
  {
    ghost var col := Column(rows, idx);
    sum := 0;
    for n := 0 to |rows|
      invariant sum == Wrap64(Total(col[..n]))
    {
      assert col[..n + 1][..n] == col[..n];
      WrapAdd(Total(col[..n]), Addend(col[n]));
      if idx < |rows[n]| {
        match rows[n][idx] {
          case Int(i) => sum := Wrap64(sum + i);
          case Str(s) =>
            if ParseInt(s).Some? {
              sum := Wrap64(sum + ParseInt(s).value);
            }
          case Nil =>
        }
      }
    }
    assert col[..|rows|] == col;
  }

  lemma {:induction false} TotalOfInts(col: seq<Cell>)
    requires forall c | c in col :: c.Int?
    ensures Total(col) == SumInts(col)
    decreases |col|
  {
    if col != [] {
      TotalOfInts(col[..|col| - 1]);
    }
  }

  method AggSum(rows: seq<Row>, idx: nat) returns (sum: Cell)
    ensures var col := Column(rows, idx); sum == if HasValue(col) then Int(SumInts(col)) else Nil
  {
    ghost var col := Column(rows, idx);
    var total, have := 0, false;
    for n := 0 to |rows|
      invariant total == SumInts(col[..n])
      invariant have <==> exists k | 0 <= k < n :: !col[k].Nil?
    {
      assert col[..n + 1][..n] == col[..n];
      if idx < |rows[n]| && !rows[n][idx].Nil? {
        total := total + IntOf(rows[n][idx]);
        have := true;
      }
    }
    assert col[..|rows|] == col;
    sum := if have then Int(total) else Nil;
  }

  /** All numbers or NULL, or all text or NULL. */
  predicate Homogeneous(col: seq<Cell>) {
    forall i, j | 0 <= i < |col| && 0 <= j < |col| :: Alike(col[i], col[j])
  }

  /** `aggMax` and `aggMin`: keep the first value no later one beats. */
  method AggExtreme(rows: seq<Row>, idx: nat, greatest: bool) returns (best: Cell)
    ensures Homogeneous(Column(rows, idx)) ==> IsExtreme(Column(rows, idx), best, greatest)
  {
    hide IsExtreme, Homogeneous;
    ghost var col := Column(rows, idx);
    best := Nil;
    ExtremeNone(greatest);
    for n := 0 to |rows|
      invariant Homogeneous(col) ==> IsExtreme(col[..n], best, greatest)
    {
      if idx < |rows[n]| && !rows[n][idx].Nil? {
        var v := rows[n][idx];
        if Homogeneous(col) {
          ExtremeStep(col, n, best, greatest);
        }
        if best.Nil? || (if greatest then LessThan(best, v) else LessThan(v, best)) {
          best := v;
        }
      } else if Homogeneous(col) {
        ExtremeSkip(col, n, best, greatest);
      }
    }
    assert col[..|rows|] == col;
  }

  lemma ExtremeNone(greatest: bool)
    ensures IsExtreme([], Nil, greatest)
  {
  }

  lemma ExtremeSkip(col: seq<Cell>, n: nat, best: Cell, greatest: bool)
    requires n < |col| && col[n].Nil? && IsExtreme(col[..n], best, greatest)
    ensures IsExtreme(col[..n + 1], best, greatest)
  {
    var s, t := col[..n], col[..n + 1];
    assert t == s + [Nil];
    assert HasValue(t) ==> HasValue(s);
    assert HasValue(s) ==> HasValue(t) by {
      if HasValue(s) { var k :| 0 <= k < |s| && !s[k].Nil?; assert t[k] == s[k]; }
    }
  }

  lemma ExtremeStep(col: seq<Cell>, n: nat, best: Cell, greatest: bool)
    requires n < |col| && !col[n].Nil? && Homogeneous(col) && IsExtreme(col[..n], best, greatest)
    ensures var v := col[n];
            var better := best.Nil? || (if greatest then LessThan(best, v) else LessThan(v, best));
            IsExtreme(col[..n + 1], if better then v else best, greatest)
  {
    var s, t, v := col[..n], col[..n + 1], col[n];
    assert t == s + [v];
    assert HasValue(t) by { assert t[n] == v; }
    CellOrder(v, v);
    if !best.Nil? {
      forall w | w in s && !w.Nil? ensures Alike(w, v) && Alike(w, best) && Alike(best, v) {
        var k :| 0 <= k < |s| && s[k] == w;
        var b :| 0 <= b < |s| && s[b] == best;
        assert col[k] == w && col[b] == best;
      }
      forall w | w in s && !w.Nil?
        ensures (if greatest then !LessThan(best, w) else !LessThan(w, best))
        ensures LessThan(best, v) && !LessThan(best, w) ==> !LessThan(v, w)
        ensures LessThan(v, best) && !LessThan(w, best) ==> !LessThan(w, v)
      {
        CellOrder(best, v);
        CellOrder(best, w);
        CellOrder(v, w);
        if LessThan(best, v) && LessThan(v, w) { CellTrans(best, v, w); }
        if LessThan(w, v) && LessThan(v, best) { CellTrans(w, v, best); }
      }
    } else {
      assert !HasValue(s);
      assert forall w | w in s :: w.Nil?;
    }
  }

  /** How the gate combines column `col` of per-shard answers: counts are added as 64-bit integers. */
  predicate Combines(kind: AggType, col: seq<Cell>, c: Cell) {
    match kind
    case Count => c == Int(Wrap64(Total(col)))
    case Sum => c == if HasValue(col) then Int(SumInts(col)) else Nil
    case Max => Homogeneous(col) ==> IsExtreme(col, c, true)
    case Min => Homogeneous(col) ==> IsExtreme(col, c, false)
  }

  /** `applyAggregation` for a select list of aggregates; `width` is the number of result columns. */
  method ApplyAggregation(kinds: seq<AggType>, width: nat, rows: seq<Row>) returns (row: Row)
    ensures |row| == |kinds|
    ensures forall i | 0 <= i < |kinds| ::
              if i < width then Combines(kinds[i], Column(rows, i), row[i]) else row[i].Nil?
  {
    row := [];
    for i := 0 to |kinds|
      invariant |row| == i
      invariant forall k | 0 <= k < i :: if k < width then Combines(kinds[k], Column(rows, k), row[k]) else row[k].Nil?
    {
      var cell := Nil;
      if i < width {
        match kinds[i] {
          case Count =>
            var n := AggSumInt64(rows, i);
            cell := Int(n);
          case Sum => cell := AggSum(rows, i);
          case Max => cell := AggExtreme(rows, i, true);
          case Min => cell := AggExtreme(rows, i, false);
        }
        assert Combines(kinds[i], Column(rows, i), cell);
      }
      row := row + [cell];
    }
  }

  // ----- aggregates distribute over any partition -----

  lemma {:induction false} SumConcat(s: seq<Cell>, t: seq<Cell>)
    ensures SumInts(s + t) == SumInts(s) + SumInts(t)
    ensures CountValues(s + t) == CountValues(s) + CountValues(t)
    decreases |t|
  {
    if t == [] {
      assert s + t == s;
    } else {
      assert (s + t)[..|s + t| - 1] == s + t[..|t| - 1];
      SumConcat(s, t[..|t| - 1]);
    }
  }

  lemma ColumnConcat(s: seq<Row>, t: seq<Row>, idx: nat)
    ensures Column(s + t, idx) == Column(s, idx) + Column(t, idx)
  {
  }

  lemma ValueIn(col: seq<Cell>, v: Cell)
    requires v in col && !v.Nil?
    ensures HasValue(col)
  {
    var k :| 0 <= k < |col| && col[k] == v;
  }

  /** The values among the parts' extremes come from the parts, and exist exactly if the parts have any. */
  lemma ExtremesOf(parts: seq<seq<Cell>>, ms: seq<Cell>, greatest: bool)
    requires |ms| == |parts| && forall i | 0 <= i < |parts| :: IsExtreme(parts[i], ms[i], greatest)
    ensures forall x | x in ms && !x.Nil? :: x in Flatten(parts)
    ensures HasValue(ms) <==> HasValue(Flatten(parts))
  {
    var all := Flatten(parts);
    forall x | x in ms && !x.Nil? ensures x in all {
      var i :| 0 <= i < |ms| && ms[i] == x;
      assert x in parts[i];
      InFlatten(parts, x);
    }
    if HasValue(ms) {
      var i :| 0 <= i < |ms| && !ms[i].Nil?;
      ValueIn(all, ms[i]);
    }
    if HasValue(all) {
      var k :| 0 <= k < |all| && !all[k].Nil?;
      InFlatten(parts, all[k]);
      var i :| 0 <= i < |parts| && all[k] in parts[i];
      ValueIn(parts[i], all[k]);
      assert !ms[i].Nil?;
    }
  }

  /** The extreme of the parts' extremes is the extreme of the whole. */
  lemma ExtremeOfExtremes(parts: seq<seq<Cell>>, ms: seq<Cell>, greatest: bool, r: Cell)
    requires |ms| == |parts| && forall i | 0 <= i < |parts| :: IsExtreme(parts[i], ms[i], greatest)
    requires Homogeneous(Flatten(parts)) && (Homogeneous(ms) ==> IsExtreme(ms, r, greatest))
    ensures IsExtreme(Flatten(parts), r, greatest)
  {
    var all := Flatten(parts);
    ExtremesOf(parts, ms, greatest);
    assert Homogeneous(ms) by {
      forall i, j | 0 <= i < |ms| && 0 <= j < |ms| ensures Alike(ms[i], ms[j]) {
        if !ms[i].Nil? && !ms[j].Nil? {
          assert ms[i] in all && ms[j] in all;
          AlikeIn(all, ms[i], ms[j]);
        }
      }
    }
    if HasValue(all) {
      forall v | v in all && !v.Nil? ensures if greatest then !LessThan(r, v) else !LessThan(v, r) {
        InFlatten(parts, v);
        var i :| 0 <= i < |parts| && v in parts[i];
        ValueIn(parts[i], v);
        assert ms[i] in ms && !ms[i].Nil?;
        Between(all, r, ms[i], v, greatest);
      }
    }
  }

  lemma AlikeIn(col: seq<Cell>, c: Cell, d: Cell)
    requires Homogeneous(col) && c in col && d in col
    ensures Alike(c, d)
  {
    var i :| 0 <= i < |col| && col[i] == c;
    var j :| 0 <= j < |col| && col[j] == d;
  }

  lemma Between(col: seq<Cell>, r: Cell, q: Cell, v: Cell, greatest: bool)
    requires Homogeneous(col) && r in col && q in col && v in col
    requires if greatest then !LessThan(r, q) && !LessThan(q, v) else !LessThan(q, r) && !LessThan(v, q)
    ensures if greatest then !LessThan(r, v) else !LessThan(v, r)
  {
    AlikeIn(col, r, q);
    AlikeIn(col, q, v);
    AlikeIn(col, r, v);
    CellOrder(r, q);
    CellOrder(q, v);
    CellOrder(r, v);
    if LessThan(r, v) && LessThan(v, q) { CellTrans(r, v, q); }
    if LessThan(q, r) && LessThan(r, v) { CellTrans(q, r, v); }
    if LessThan(v, r) && LessThan(r, q) { CellTrans(v, r, q); }
    if LessThan(q, v) && LessThan(v, r) { CellTrans(q, v, r); }
  }

  ghost function Columns(shards: seq<seq<Row>>, idx: nat): (cols: seq<seq<Cell>>)
    ensures |cols| == |shards| && forall i | 0 <= i < |shards| :: cols[i] == Column(shards[i], idx)
  {
    seq(|shards|, i requires 0 <= i < |shards| => Column(shards[i], idx))
  }

  lemma {:induction false} FlattenColumns(shards: seq<seq<Row>>, idx: nat)
    ensures Flatten(Columns(shards, idx)) == Column(Flatten(shards), idx)
    decreases |shards|
  {
    if shards != [] {
      var init := shards[..|shards| - 1];
      FlattenColumns(init, idx);
      assert Columns(shards, idx)[..|shards| - 1] == Columns(init, idx);
      ColumnConcat(Flatten(init), shards[|shards| - 1], idx);
    }
  }

  /** Sums of sums and sums of counts, shard by shard. */
  lemma {:induction false} SumOfSums(parts: seq<seq<Cell>>, xs: seq<Cell>)
    requires |xs| == |parts|
    requires forall i | 0 <= i < |parts| :: xs[i] == if HasValue(parts[i]) then Int(SumInts(parts[i])) else Nil
    ensures SumInts(xs) == SumInts(Flatten(parts)) && (HasValue(xs) <==> HasValue(Flatten(parts)))
    decreases |parts|
  {
    if parts != [] {
      var init, last := parts[..|parts| - 1], parts[|parts| - 1];
      SumOfSums(init, xs[..|xs| - 1]);
      SumConcat(Flatten(init), last);
      NoValueNoSum(last);
      HasValueConcat(Flatten(init), last);
      HasValueConcat(xs[..|xs| - 1], [xs[|xs| - 1]]);
      assert xs == xs[..|xs| - 1] + [xs[|xs| - 1]];
      assert HasValue([xs[|xs| - 1]]) <==> !xs[|xs| - 1].Nil? by { assert [xs[|xs| - 1]][0] == xs[|xs| - 1]; }
    }
  }

  lemma HasValueConcat(s: seq<Cell>, t: seq<Cell>)
    ensures HasValue(s + t) <==> HasValue(s) || HasValue(t)
  {
    if HasValue(s) { var k :| 0 <= k < |s| && !s[k].Nil?; assert (s + t)[k] == s[k]; }
    if HasValue(t) { var k :| 0 <= k < |t| && !t[k].Nil?; assert (s + t)[|s| + k] == t[k]; }
    if HasValue(s + t) {
      var k :| 0 <= k < |s + t| && !(s + t)[k].Nil?;
      assert if k < |s| then s[k] == (s + t)[k] else t[k - |s|] == (s + t)[k];
    }
  }

  lemma {:induction false} NoValueNoSum(col: seq<Cell>)
    ensures !HasValue(col) ==> SumInts(col) == 0
    decreases |col|
  {
    if col != [] && !HasValue(col) {
      assert col[|col| - 1].Nil?;
      assert forall k | 0 <= k < |col| - 1 :: col[..|col| - 1][k] == col[k];
      NoValueNoSum(col[..|col| - 1]);
    }
  }

  lemma {:induction false} SumOfCounts(parts: seq<seq<Cell>>, xs: seq<Cell>)
    requires |xs| == |parts| && forall i | 0 <= i < |parts| :: xs[i] == Int(CountValues(parts[i]))
    ensures SumInts(xs) == CountValues(Flatten(parts))
    decreases |parts|
  {
    if parts != [] {
      SumOfCounts(parts[..|parts| - 1], xs[..|xs| - 1]);
      SumConcat(Flatten(parts[..|parts| - 1]), parts[|parts| - 1]);
    }
  }

  lemma {:induction false} SumOfLengths(shards: seq<seq<Row>>, xs: seq<Cell>)
    requires |xs| == |shards| && forall i | 0 <= i < |shards| :: xs[i] == Int(|shards[i]|)
    ensures SumInts(xs) == |Flatten(shards)|
    decreases |shards|
  {
    if shards != [] {
      SumOfLengths(shards[..|shards| - 1], xs[..|xs| - 1]);
    }
  }

  /** For any partition of the rows into shards, empty ones included: if every shard answers aggregate
      `g` over its rows and the gate combines the answers, the result is the answer over all rows,
      NULL for SUM, MIN and MAX without values. For a COUNT this holds exactly when the total fits
      into 64 bits; MIN and MAX need a homogeneous column. */
  lemma AggregateDistributes(g: Aggregate, shards: seq<seq<Row>>, answers: seq<Cell>, r: Cell)
    requires |answers| == |shards| && forall i | 0 <= i < |shards| :: Answers(g, shards[i], answers[i])
    requires g.column.None? ==> g.kind.Count?
    requires Combines(g.kind, answers, r)
    requires g.kind.Max? || g.kind.Min? ==> Homogeneous(Column(Flatten(shards), g.column.value))
    ensures !g.kind.Count? ==> Answers(g, Flatten(shards), r)
    ensures g.kind.Count? ==> (Answers(g, Flatten(shards), r) <==> IsInt64(SumInts(answers)))
  {
    if g.kind.Count? {
      TotalOfInts(answers);
    }
    if g.column.None? {
      SumOfLengths(shards, answers);
    } else {
      var parts := Columns(shards, g.column.value);
      FlattenColumns(shards, g.column.value);
      match g.kind
      case Count => SumOfCounts(parts, answers);
      case Sum => SumOfSums(parts, answers);
      case Max => ExtremeOfExtremes(parts, answers, true, r);
      case Min => ExtremeOfExtremes(parts, answers, false, r);
    }
  }

  ghost predicate ShardAnswers(aggs: seq<Aggregate>, rows: seq<Row>, answer: Row) {
    |answer| == |aggs| && forall i | 0 <= i < |aggs| :: Answers(aggs[i], rows, answer[i])
  }

  /** The total of a COUNT fits into 64 bits; a MIN or MAX column is homogeneous. */
  ghost predicate Mergeable(g: Aggregate, shards: seq<seq<Row>>, answers: seq<Cell>) {
    && (g.column.None? ==> g.kind.Count?)
    && (g.kind.Count? ==> IsInt64(SumInts(answers)))
    && (g.kind.Max? || g.kind.Min? ==> Homogeneous(Column(Flatten(shards), g.column.value)))
  }

  /** The merge of an all-aggregate select list: one row per shard goes in, and every cell of the row
      that comes out answers its aggregate over the rows of all shards. With no shard at all there
      are no columns either, and every cell is NULL, a COUNT's too. */
  method MergeAggregates(aggs: seq<Aggregate>, answers: seq<Row>, ghost shards: seq<seq<Row>>) returns (row: Row)
    requires |answers| == |shards| && forall s | 0 <= s < |shards| :: ShardAnswers(aggs, shards[s], answers[s])
    ensures |row| == |aggs|
    ensures forall i | 0 <= i < |aggs| ::
              if answers == [] then row[i].Nil?
              else Mergeable(aggs[i], shards, Column(answers, i)) ==> Answers(aggs[i], Flatten(shards), row[i])
  {
    var kinds := seq(|aggs|, i requires 0 <= i < |aggs| => aggs[i].kind);
    var width := if answers == [] then 0 else |aggs|;
    row := ApplyAggregation(kinds, width, answers);
    forall i | 0 <= i < |aggs| && answers != [] && Mergeable(aggs[i], shards, Column(answers, i))
      ensures Answers(aggs[i], Flatten(shards), row[i])
    {
      forall s | 0 <= s < |shards| ensures Answers(aggs[i], shards[s], Column(answers, i)[s]) {
        assert ShardAnswers(aggs, shards[s], answers[s]);
      }
      assert Combines(kinds[i], Column(answers, i), row[i]);
      AggregateDistributes(aggs[i], shards, Column(answers, i), row[i]);
    }
  }
}
