/** DISTINCT at the gate: rows are recognised by a joined text key. */
module Distinct {
  import opened Text
  import opened Cells
  import opened Lists

  const SEPARATOR: char := '\U{1}'
  const NULL_MARK: string := "\U{0}NULL\U{0}"

  function Part(c: Cell): (s: string) {
    if c.Nil? then NULL_MARK else Rendered(c)
  }

  function Join(parts: seq<string>): (s: string) {
    if parts == [] then ""
    else if |parts| == 1 then parts[0]
    else parts[0] + [SEPARATOR] + Join(parts[1..])
  }

  function Parts(r: Row): (ps: seq<string>)
    ensures |ps| == |r| && forall i | 0 <= i < |r| :: ps[i] == Part(r[i])
  {
    seq(|r|, i requires 0 <= i < |r| => Part(r[i]))
  }

  /** `rowKey`. */
  function RowKey(r: Row): (s: string) {
    Join(Parts(r))
  }

  // ----- the key tells rows apart -----

  /** A cell as type inference leaves it, whose text is neither the NULL mark nor cut by the separator. */
  predicate Clean(c: Cell) {
    match c
    case Nil => true
    case Int(i) => IsInt64(i)
    case Str(s) => SEPARATOR !in s && s != NULL_MARK && ParseInt(s).None?
  }

  predicate CleanRow(r: Row) {
    forall i | 0 <= i < |r| :: Clean(r[i])
  }

  lemma PartInjective(c: Cell, d: Cell)
    requires Clean(c) && Clean(d) && Part(c) == Part(d)
    ensures c == d
  {
    if c.Int? { ParseFormat(c.i); IntPart(c.i); }
    if d.Int? { ParseFormat(d.i); IntPart(d.i); }
    if c.Int? && d.Int? { FormatInjective(c.i, d.i); }
  }

  /** A printed number is not the NULL mark and holds no separator. */
  lemma IntPart(i: int)
    ensures FormatInt(i) != NULL_MARK && SEPARATOR !in FormatInt(i)
  {
    var s := FormatInt(i);
    assert s[0] != NULL_MARK[0];
  }

  lemma PartHasNoSeparator(c: Cell)
    requires Clean(c)
    ensures SEPARATOR !in Part(c)
  {
    if c.Int? { IntPart(c.i); }
  }

  lemma HeadUnique(p: string, q: string, s: string, t: string)
    requires SEPARATOR !in p && SEPARATOR !in q
    requires p + [SEPARATOR] + s == q + [SEPARATOR] + t
    ensures p == q && s == t
  {
    var u := p + [SEPARATOR] + s;
    assert u[|p|] == SEPARATOR && u[|q|] == SEPARATOR;
    assert forall k | 0 <= k < |p| :: u[k] == p[k];
    assert forall k | 0 <= k < |q| :: u[k] == q[k];
    assert |p| == |q|;
    assert p == u[..|p|] && q == u[..|q|];
    assert s == u[|p| + 1..] && t == u[|q| + 1..];
  }

  lemma {:induction false} JoinInjective(ps: seq<string>, qs: seq<string>)
    requires |ps| == |qs| && Join(ps) == Join(qs)
    requires forall i | 0 <= i < |ps| :: SEPARATOR !in ps[i] && SEPARATOR !in qs[i]
    ensures ps == qs
    decreases |ps|
  {
    if |ps| == 1 {
      assert ps == [ps[0]] && qs == [qs[0]];
    } else if |ps| > 1 {
      HeadUnique(ps[0], qs[0], Join(ps[1..]), Join(qs[1..]));
      JoinInjective(ps[1..], qs[1..]);
      assert ps == [ps[0]] + ps[1..] && qs == [qs[0]] + qs[1..];
    }
  }

  /** Rows of the same width with clean cells have the same key only if they are the same row. */
  lemma RowKeyInjective(r: Row, s: Row)
    requires |r| == |s| && CleanRow(r) && CleanRow(s) && RowKey(r) == RowKey(s)
    ensures r == s
  {
    forall i | 0 <= i < |r| ensures SEPARATOR !in Parts(r)[i] && SEPARATOR !in Parts(s)[i] {
      PartHasNoSeparator(r[i]);
      PartHasNoSeparator(s[i]);
    }
    JoinInjective(Parts(r), Parts(s));
    forall i | 0 <= i < |r| ensures r[i] == s[i] {
      assert Parts(r)[i] == Parts(s)[i];
      PartInjective(r[i], s[i]);
    }
  }

  /** Without that, different rows can share a key; `KeyedIffFaithful` says what this means for DISTINCT. */
  lemma KeysCollide()
    ensures var r, s := [Str("a\U{1}b"), Str("c")], [Str("a"), Str("b\U{1}c")];
            r != s && RowKey(r) == RowKey(s)
    ensures RowKey([Nil]) == RowKey([Str("\U{0}NULL\U{0}")])
  {
    assert Parts([Nil]) == ["\U{0}NULL\U{0}"] == Parts([Str("\U{0}NULL\U{0}")]);
    var r, s := [Str("a\U{1}b"), Str("c")], [Str("a"), Str("b\U{1}c")];
    assert Parts(r) == ["a\U{1}b", "c"] && Parts(s) == ["a", "b\U{1}c"];
    assert Join(["a\U{1}b", "c"]) == "a\U{1}b\U{1}c";
    assert Join(["a", "b\U{1}c"]) == "a\U{1}b\U{1}c";
  }

  // ----- first occurrences -----

  /** True set semantics: keep each row where it first occurs. */
  function Dedup(rows: seq<Row>): (out: seq<Row>) {
    if rows == [] then []
    else
      var init, last := rows[..|rows| - 1], rows[|rows| - 1];
      if last in init then Dedup(init) else Dedup(init) + [last]
  }

  predicate Uniform(rows: seq<Row>) {
    forall i, j | 0 <= i < |rows| && 0 <= j < |rows| :: |rows[i]| == |rows[j]| && CleanRow(rows[i])
  }

  ghost function KeysOf(rows: seq<Row>): (keys: set<string>) {
    set k | 0 <= k < |rows| :: RowKey(rows[k])
  }

  /** Keep each row whose key did not occur before. */
  ghost function DedupByKey(rows: seq<Row>): (out: seq<Row>) {
    if rows == [] then []
    else
      var init, last := rows[..|rows| - 1], rows[|rows| - 1];
      if RowKey(last) in KeysOf(init) then DedupByKey(init) else DedupByKey(init) + [last]
  }

  /** Among these rows, equal keys mean equal rows. */
  predicate FaithfulKeys(rows: seq<Row>) {
    forall i, j | 0 <= i < |rows| && 0 <= j < |rows| && RowKey(rows[i]) == RowKey(rows[j]) :: rows[i] == rows[j]
  }

  /** `applyDistinct`: one pass with a set of keys. It keeps exactly the first occurrences if and only if
      equal keys mean equal rows, as they do for rows of one width with clean cells. */
  method ApplyDistinct(rows: seq<Row>) returns (out: seq<Row>)
    ensures out == DedupByKey(rows)
    ensures out == Dedup(rows) <==> FaithfulKeys(rows)
    ensures Uniform(rows) ==> out == Dedup(rows)
  {
    hide RowKey;
    var seen: set<string> := {};
    out := [];
    for n := 0 to |rows|
      invariant seen == KeysOf(rows[..n]) && out == DedupByKey(rows[..n])
    {
      var key := RowKey(rows[n]);
      assert rows[..n + 1][..n] == rows[..n] && rows[..n + 1][n] == rows[n];
      KeysGrow(rows, n);
      if key !in seen {
        seen := seen + {key};
        out := out + [rows[n]];
      }
    }
    assert rows[..|rows|] == rows;
    KeyedIffFaithful(rows);
    if Uniform(rows) {
      CleanIsFaithful(rows);
    }
  }

  lemma {:induction false} FaithfulIsDistinct(rows: seq<Row>)
    requires FaithfulKeys(rows)
    ensures DedupByKey(rows) == Dedup(rows)
    decreases |rows|
  {
    hide RowKey;
    if rows != [] {
      var init, last := rows[..|rows| - 1], rows[|rows| - 1];
      assert forall i | 0 <= i < |init| :: init[i] == rows[i];
      FaithfulIsDistinct(init);
      if RowKey(last) in KeysOf(init) {
        var k :| 0 <= k < |init| && RowKey(init[k]) == RowKey(last);
        assert rows[k] == last;
      }
    }
  }

  /** No two rows that are kept share a key. */
  lemma {:induction false} KeyedApart(rows: seq<Row>)
    ensures forall r | r in DedupByKey(rows) :: RowKey(r) in KeysOf(rows)
    ensures forall i, j | 0 <= i < j < |DedupByKey(rows)| :: RowKey(DedupByKey(rows)[i]) != RowKey(DedupByKey(rows)[j])
    decreases |rows|
  {
    hide RowKey;
    if rows != [] {
      var n := |rows| - 1;
      var init := rows[..n];
      KeyedApart(init);
      assert rows[..n + 1] == rows;
      KeysGrow(rows, n);
    }
  }

  /** DISTINCT by key is DISTINCT exactly when equal keys mean equal rows. */
  lemma KeyedIffFaithful(rows: seq<Row>)
    ensures DedupByKey(rows) == Dedup(rows) <==> FaithfulKeys(rows)
  {
    hide RowKey, DedupByKey, Dedup;
    if FaithfulKeys(rows) {
      FaithfulIsDistinct(rows);
    }
    if DedupByKey(rows) == Dedup(rows) {
      var kept := Dedup(rows);
      DedupElements(rows);
      KeyedApart(rows);
      forall i, j | 0 <= i < |rows| && 0 <= j < |rows| && RowKey(rows[i]) == RowKey(rows[j])
        ensures rows[i] == rows[j]
      {
        assert rows[i] in kept && rows[j] in kept;
        var x :| 0 <= x < |kept| && kept[x] == rows[i];
        var y :| 0 <= y < |kept| && kept[y] == rows[j];
      }
    }
  }

  lemma KeysGrow(rows: seq<Row>, n: nat)
    requires n < |rows|
    ensures KeysOf(rows[..n + 1]) == KeysOf(rows[..n]) + {RowKey(rows[n])}
  {
    hide RowKey;
    var s, t := rows[..n + 1], rows[..n];
    forall key | key in KeysOf(s) ensures key in KeysOf(t) + {RowKey(rows[n])} {
      var k :| 0 <= k < |s| && RowKey(s[k]) == key;
      assert k < n ==> t[k] == s[k];
    }
    forall key | key in KeysOf(t) + {RowKey(rows[n])} ensures key in KeysOf(s) {
      if key != RowKey(rows[n]) {
        var k :| 0 <= k < |t| && RowKey(t[k]) == key;
        assert s[k] == t[k];
      } else {
        assert s[n] == rows[n];
      }
    }
  }

  lemma CleanIsFaithful(rows: seq<Row>)
    requires Uniform(rows)
    ensures FaithfulKeys(rows)
  {
    hide RowKey;
    forall i, j | 0 <= i < |rows| && 0 <= j < |rows| && RowKey(rows[i]) == RowKey(rows[j]) ensures rows[i] == rows[j] {
      RowKeyInjective(rows[i], rows[j]);
    }
  }

  /** Exactly the rows that occur, each once. */
  lemma {:induction false} DedupElements(rows: seq<Row>)
    ensures forall r :: r in Dedup(rows) <==> r in rows
    ensures forall i, j | 0 <= i < j < |Dedup(rows)| :: Dedup(rows)[i] != Dedup(rows)[j]
    decreases |rows|
  {
    if rows != [] {
      var init, last := rows[..|rows| - 1], rows[|rows| - 1];
      assert rows == init + [last];
      DedupElements(init);
    }
  }

  /** Rows are kept where they first occur, in that order. */
  lemma {:induction false} DedupPositions(rows: seq<Row>) returns (ps: seq<nat>)
    ensures |ps| == |Dedup(rows)| && forall i, j | 0 <= i < j < |ps| :: ps[i] < ps[j]
    ensures forall i | 0 <= i < |ps| ::
              ps[i] < |rows| && Dedup(rows)[i] == rows[ps[i]] && rows[ps[i]] !in rows[..ps[i]]
    decreases |rows|
  {
    ps := [];
    if rows != [] {
      var n := |rows| - 1;
      var init := rows[..n];
      ps := DedupPositions(init);
      assert forall i | 0 <= i < |ps| :: init[..ps[i]] == rows[..ps[i]];
      if rows[n] !in init {
        ps := ps + [n];
      }
    }
  }

  lemma {:induction false} DedupFixed(rows: seq<Row>)
    requires forall i, j | 0 <= i < j < |rows| :: rows[i] != rows[j]
    ensures Dedup(rows) == rows
    decreases |rows|
  {
    if rows != [] {
      DedupFixed(rows[..|rows| - 1]);
    }
  }

  lemma DedupIdempotent(rows: seq<Row>)
    ensures Dedup(Dedup(rows)) == Dedup(rows)
  {
    DedupElements(rows);
    DedupFixed(Dedup(rows));
  }

  lemma {:induction false} DedupPrefix(s: seq<Row>, t: seq<Row>)
    ensures Dedup(Dedup(s) + t) == Dedup(s + t)
    decreases |t|
  {
    if t == [] {
      assert Dedup(s) + t == Dedup(s) && s + t == s;
      DedupIdempotent(s);
    } else {
      var init, last := t[..|t| - 1], t[|t| - 1];
      DedupPrefix(s, init);
      assert (Dedup(s) + t)[..|Dedup(s) + t| - 1] == Dedup(s) + init;
      assert (s + t)[..|s + t| - 1] == s + init;
      DedupElements(s);
    }
  }

  lemma DedupSnoc(s: seq<Row>, last: Row)
    ensures Dedup(s + [last]) == if last in s then Dedup(s) else Dedup(s) + [last]
  {
    assert (s + [last])[..|s|] == s;
  }

  lemma {:induction false} DedupSuffix(s: seq<Row>, t: seq<Row>)
    ensures Dedup(s + Dedup(t)) == Dedup(s + t)
    decreases |t|
  {
    if t != [] {
      var init, last := t[..|t| - 1], t[|t| - 1];
      assert t == init + [last] && s + t == s + init + [last];
      DedupSuffix(s, init);
      DedupElements(init);
      DedupSnoc(init, last);
      DedupSnoc(s + init, last);
      hide Dedup;
      if last !in init {
        assert s + Dedup(t) == s + Dedup(init) + [last];
        DedupSnoc(s + Dedup(init), last);
      }
    }
  }

  /** Removing duplicates on the shards first changes nothing: the distinct rows of concatenated
      distinct rows are the distinct rows of the concatenation. */
  lemma DedupConcat(s: seq<Row>, t: seq<Row>)
    ensures Dedup(Dedup(s) + Dedup(t)) == Dedup(s + t)
  {
    DedupPrefix(s, Dedup(t));
    DedupSuffix(s, t);
  }

  /** Which rows are kept depends only on which rows there are, not on their order. */
  lemma DedupArrangement(s: seq<Row>, t: seq<Row>)
    requires multiset(s) == multiset(t)
    ensures multiset(Dedup(s)) == multiset(Dedup(t))
  {
    DedupElements(s);
    DedupElements(t);
    forall r ensures multiset(Dedup(s))[r] == multiset(Dedup(t))[r] {
      OnceOrNever(Dedup(s), r);
      OnceOrNever(Dedup(t), r);
      assert r in s <==> r in multiset(s);
      assert r in t <==> r in multiset(t);
    }
  }
}
