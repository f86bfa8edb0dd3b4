/** Typed result cells and the order in which the merge engine sorts them. */
module Cells {
  import opened Text

  /** A cell after type inference: SQL NULL, an integer, or text. */
  datatype Cell = Nil | Int(i: int) | Str(s: string)

  type Row = seq<Cell>

  datatype Direction = Asc | Desc

  /** One ORDER BY column, resolved to its position in the row. */
  datatype Key = Key(idx: nat, dir: Direction)

  /** What `fmt.Sprintf("%v", ...)` prints for a cell that is not NULL. */
  function Rendered(c: Cell): (s: string)
    requires !c.Nil?
  {
    match c
    case Int(i) => FormatInt(i)
    case Str(s) => s
  }

  /** `comparableValue.lessThan`: NULL is the greatest value, numbers and text compare among
      themselves, a number and a text by what they print as. */
  predicate LessThan(c: Cell, d: Cell) {
    if c.Nil? then false
    else if d.Nil? then true
    else if c.Int? && d.Int? then c.i < d.i
    else StrLess(Rendered(c), Rendered(d))
  }

  /** `comparableValue.equal`. */
  predicate Equal(c: Cell, d: Cell) {
    if c.Nil? || d.Nil? then c.Nil? && d.Nil?
    else if c.Int? && d.Int? then c.i == d.i
    else Rendered(c) == Rendered(d)
  }

  predicate Wide(keys: seq<Key>, r: Row) {
    forall k | 0 <= k < |keys| :: keys[k].idx < |r|
  }

  /** The comparison closure of `sortRows`: the first ORDER BY column that differs decides. */
  predicate RowLess(keys: seq<Key>, r: Row, s: Row)
    requires Wide(keys, r) && Wide(keys, s)
  {
    keys != [] &&
    var c, d := r[keys[0].idx], s[keys[0].idx];
    assert forall k | 0 <= k < |keys[1..]| :: keys[1..][k] == keys[k + 1];
    if Equal(c, d) then RowLess(keys[1..], r, s)
    else if keys[0].dir.Desc? then LessThan(d, c)
    else LessThan(c, d)
  }

  // ----- the order laws -----

  /** Two cells of one homogeneous column: both numbers or NULL, or both text or NULL. */
  predicate Alike(c: Cell, d: Cell) {
    (!c.Str? && !d.Str?) || (!c.Int? && !d.Int?)
  }

  predicate RowsAlike(keys: seq<Key>, r: Row, s: Row)
    requires Wide(keys, r) && Wide(keys, s)
  {
    forall k | 0 <= k < |keys| :: Alike(r[keys[k].idx], s[keys[k].idx])
  }

  /** On a homogeneous column the comparison is a total order and `Equal` is equality. */
  lemma CellOrder(c: Cell, d: Cell)
    requires Alike(c, d)
    ensures Equal(c, d) <==> c == d
    ensures LessThan(c, d) || LessThan(d, c) || c == d
    ensures !(LessThan(c, d) && LessThan(d, c)) && !LessThan(c, c)
  {
    if c.Str? && d.Str? {
      StrTotal(c.s, d.s);
    }
    if c.Str? {
      StrTotal(c.s, c.s);
    }
  }

  lemma CellTrans(c: Cell, d: Cell, e: Cell)
    requires Alike(c, d) && Alike(d, e) && Alike(c, e) && LessThan(c, d) && LessThan(d, e)
    ensures LessThan(c, e)
  {
    if c.Str? && d.Str? && e.Str? {
      StrTrans(c.s, d.s, e.s);
    }
  }

  /** In the first ORDER BY column that differs, NULLs come last in ascending and first in descending
      order, as the PostgreSQL documentation has it in section 7.5. */
  lemma {:induction false} NullPlacement(keys: seq<Key>, r: Row, s: Row, n: nat)
    requires n < |keys| && Wide(keys, r) && Wide(keys, s) && r[keys[n].idx].Nil? && !s[keys[n].idx].Nil?
    requires forall k | 0 <= k < n :: Equal(r[keys[k].idx], s[keys[k].idx])
    ensures RowLess(keys, s, r) <==> keys[n].dir.Asc?
    ensures RowLess(keys, r, s) <==> keys[n].dir.Desc?
    decreases n
  {
    if n > 0 {
      var rest := keys[1..];
      assert forall k | 0 <= k < |rest| :: rest[k] == keys[k + 1];
      assert rest[n - 1] == keys[n];
      NullPlacement(rest, r, s, n - 1);
    }
  }

  /** The rows agree on the first `n` ORDER BY columns. */
  predicate Agree(keys: seq<Key>, r: Row, s: Row, n: nat)
    requires n <= |keys| && Wide(keys, r) && Wide(keys, s)
  {
    forall k | 0 <= k < n :: r[keys[k].idx] == s[keys[k].idx]
  }

  /** The first ORDER BY column that differs decides. */
  lemma {:induction false} FirstDifference(keys: seq<Key>, r: Row, s: Row, n: nat)
    requires n < |keys| && Wide(keys, r) && Wide(keys, s) && Agree(keys, r, s, n)
    ensures RowLess(keys, r, s) == RowLess(keys[n..], r, s)
    decreases n
  {
    if n > 0 {
      var rest := keys[1..];
      assert forall k | 0 <= k < |rest| :: rest[k] == keys[k + 1];
      assert Equal(r[keys[0].idx], s[keys[0].idx]);
      FirstDifference(rest, r, s, n - 1);
      assert rest[n - 1..] == keys[n..];
    }
  }

  /** Numbers in the first column that differs: the smaller comes first in ascending order, the greater in descending
      order. */
  lemma NumbersDecide(keys: seq<Key>, r: Row, s: Row, n: nat, x: int, y: int)
    requires n < |keys| && Wide(keys, r) && Wide(keys, s) && Agree(keys, r, s, n)
    requires r[keys[n].idx] == Int(x) && s[keys[n].idx] == Int(y) && x != y
    ensures RowLess(keys, r, s) <==> if keys[n].dir == Asc then x < y else x > y
  {
    FirstDifference(keys, r, s, n);
  }

  /** Texts in the first column that differs: the one that ends or has the smaller character at the first position
      where they differ comes first in ascending order, the other in descending order. */
  lemma TextDecides(keys: seq<Key>, r: Row, s: Row, n: nat, x: string, y: string)
    requires n < |keys| && Wide(keys, r) && Wide(keys, s) && Agree(keys, r, s, n)
    requires r[keys[n].idx] == Str(x) && s[keys[n].idx] == Str(y) && x != y
    ensures RowLess(keys, r, s) <==>
            if keys[n].dir == Asc then exists k :: EarlierAt(x, y, k) else exists k :: EarlierAt(y, x, k)
  {
    FirstDifference(keys, r, s, n);
    StrLessIff(x, y);
    StrLessIff(y, x);
  }

  lemma {:induction false} RowAsym(keys: seq<Key>, r: Row, s: Row)
    requires Wide(keys, r) && Wide(keys, s) && RowsAlike(keys, r, s)
    ensures !(RowLess(keys, r, s) && RowLess(keys, s, r))
    ensures RowLess(keys, r, s) || RowLess(keys, s, r)
       <==> exists k | 0 <= k < |keys| :: r[keys[k].idx] != s[keys[k].idx]
    decreases |keys|
  {
    if keys != [] {
      var c, d := r[keys[0].idx], s[keys[0].idx];
      CellOrder(c, d);
      CellOrder(d, c);
      if c == d {
        assert forall k | 0 <= k < |keys[1..]| :: keys[1..][k] == keys[k + 1];
        RowAsym(keys[1..], r, s);
        assert (exists k | 0 <= k < |keys| :: r[keys[k].idx] != s[keys[k].idx]) ==>
               (exists k | 0 <= k < |keys[1..]| :: r[keys[1..][k].idx] != s[keys[1..][k].idx]) by {
          if k :| 0 <= k < |keys| && r[keys[k].idx] != s[keys[k].idx] {
            assert keys[1..][k - 1] == keys[k];
          }
        }
      }
    }
  }

  /** Transitivity, and transitivity of "not after": together with asymmetry, a strict weak order. */
  lemma {:induction false} RowTrans(keys: seq<Key>, r: Row, s: Row, t: Row)
    requires Wide(keys, r) && Wide(keys, s) && Wide(keys, t)
    requires RowsAlike(keys, r, s) && RowsAlike(keys, s, t) && RowsAlike(keys, r, t)
    ensures RowLess(keys, r, s) && RowLess(keys, s, t) ==> RowLess(keys, r, t)
    ensures !RowLess(keys, r, s) && !RowLess(keys, s, t) ==> !RowLess(keys, r, t)
    decreases |keys|
  {
    if keys != [] {
      var c, d, e := r[keys[0].idx], s[keys[0].idx], t[keys[0].idx];
      assert Alike(c, d) && Alike(d, e) && Alike(c, e);
      CellOrder(c, d);
      CellOrder(d, e);
      CellOrder(c, e);
      CellOrder(d, c);
      CellOrder(e, d);
      CellOrder(e, c);
      if c == d && d == e {
        assert forall k | 0 <= k < |keys[1..]| :: keys[1..][k] == keys[k + 1];
        RowTrans(keys[1..], r, s, t);
      } else {
        if LessThan(c, d) && LessThan(d, e) { CellTrans(c, d, e); }
        if LessThan(e, d) && LessThan(d, c) { CellTrans(e, d, c); }
      }
    }
  }

  /** A column that mixes numbers and text has no order: the comparison runs in a circle. */
  lemma MixedColumnCycles()
    ensures LessThan(Int(9), Int(10)) && LessThan(Int(10), Str("5x")) && LessThan(Str("5x"), Int(9))
  {
    assert FormatInt(10) == "10" by {
      assert Decimal(1) == "1" && Decimal(10) == Decimal(1) + [DigitChar(0)];
    }
    assert FormatInt(9) == "9";
  }
}
