/** Single-table statements: their syntax as far as the gate looks at it, and what they mean. */
module Sql {
  import opened Text
  import opened Cells

  /** A stored row: column name to value; a missing column reads as NULL. */
  type Record = map<string, Cell>

  datatype Operand =
    | ColumnRef(name: string)
    | Number(n: int)
    | Quoted(text: string)
    | Plus(left: Operand, right: Operand)

  datatype CmpOp = Eq | Ne | Lt | Gt

  datatype Expr =
    | And(left: Expr, right: Expr)
    | Or(left: Expr, right: Expr)
    | Not(arg: Expr)
    | Cmp(op: CmpOp, lhs: Operand, rhs: Operand)

  datatype Assignment = Assignment(column: string, value: Operand)

  datatype OrderColumn = OrderColumn(name: string, dir: Direction)

  /** A number in a LIMIT or OFFSET clause: a literal, or an expression with the given value. */
  datatype IntExpr = Literal(n: nat) | Computed(value: nat)

  datatype Query = Query(
    distinct: bool, columns: seq<string>, table: string, where: Option<Expr>,
    orderBy: seq<OrderColumn>, limit: Option<IntExpr>, offset: Option<IntExpr>)

  datatype Statement =
    | Select(query: Query)
    | Insert(table: string, columns: seq<string>, rows: seq<seq<Operand>>)
    | Update(table: string, sets: seq<Assignment>, where: Option<Expr>)
    | Delete(table: string, where: Option<Expr>)
    | OtherStatement(writes: bool)

  // ----- three-valued meaning of a WHERE clause -----

  datatype Truth = True | False | Unknown

  function And3(p: Truth, q: Truth): (r: Truth) {
    if p.False? || q.False? then False else if p.True? && q.True? then True else Unknown
  }

  function Not3(p: Truth): (r: Truth) {
    match p
    case True => False
    case False => True
    case Unknown => Unknown
  }

  function Or3(p: Truth, q: Truth): (r: Truth) {
    Not3(And3(Not3(p), Not3(q)))
  }

  function Value(o: Operand, rec: Record): (c: Cell) {
    match o
    case ColumnRef(name) => if name in rec then rec[name] else Nil
    case Number(n) => Int(n)
    case Quoted(text) => Str(text)
    case Plus(l, r) =>
      var c, d := Value(l, rec), Value(r, rec);
      if c.Int? && d.Int? then Int(c.i + d.i) else Nil
  }

  /** A text compared with a number is read as a number; if it is none, the database rejects the
      query, so no row satisfies it. */
  function AsNumber(c: Cell): (r: Option<int>) {
    match c
    case Nil => None
    case Int(i) => Some(i)
    case Str(s) => ParseInt(s)
  }

  function OfBool(b: bool): (t: Truth) {
    if b then True else False
  }

  function Compare(op: CmpOp, c: Cell, d: Cell): (t: Truth) {
    if c.Nil? || d.Nil? then Unknown
    else if c.Str? && d.Str? then
      match op
      case Eq => OfBool(c.s == d.s)
      case Ne => OfBool(c.s != d.s)
      case Lt => OfBool(StrLess(c.s, d.s))
      case Gt => OfBool(StrLess(d.s, c.s))
    else
      var x, y := AsNumber(c), AsNumber(d);
      if x.None? || y.None? then Unknown
      else
        match op
        case Eq => OfBool(x.value == y.value)
        case Ne => OfBool(x.value != y.value)
        case Lt => OfBool(x.value < y.value)
        case Gt => OfBool(x.value > y.value)
  }

  function Eval(e: Expr, rec: Record): (t: Truth) {
    match e
    case And(l, r) => And3(Eval(l, rec), Eval(r, rec))
    case Or(l, r) => Or3(Eval(l, rec), Eval(r, rec))
    case Not(a) => Not3(Eval(a, rec))
    case Cmp(op, l, r) => Compare(op, Value(l, rec), Value(r, rec))
  }

  predicate Satisfies(where: Option<Expr>, rec: Record) {
    where.None? || Eval(where.value, rec).True?
  }

  function Filter(where: Option<Expr>, recs: seq<Record>): (out: seq<Record>) {
    if recs == [] then []
    else
      var init, last := Filter(where, recs[..|recs| - 1]), recs[|recs| - 1];
      if Satisfies(where, last) then init + [last] else init
  }

  lemma {:induction false} FilterConcat(where: Option<Expr>, s: seq<Record>, t: seq<Record>)
    ensures Filter(where, s + t) == Filter(where, s) + Filter(where, t)
    decreases |t|
  {
    if t == [] {
      assert s + t == s;
    } else {
      assert (s + t)[..|s + t| - 1] == s + t[..|t| - 1];
      FilterConcat(where, s, t[..|t| - 1]);
    }
  }

  lemma {:induction false} FilterNone(where: Option<Expr>, recs: seq<Record>)
    requires forall rec | rec in recs :: !Satisfies(where, rec)
    ensures Filter(where, recs) == []
    decreases |recs|
  {
    if recs != [] {
      FilterNone(where, recs[..|recs| - 1]);
    }
  }

  lemma {:induction false} FilterSubset(where: Option<Expr>, recs: seq<Record>)
    ensures forall rec | rec in Filter(where, recs) :: rec in recs && Satisfies(where, rec)
    decreases |recs|
  {
    if recs != [] {
      FilterSubset(where, recs[..|recs| - 1]);
    }
  }

  /** Every record that satisfies the clause is kept as often as it occurs, and no other record is. */
  lemma {:induction false} FilterCounts(where: Option<Expr>, recs: seq<Record>, rec: Record)
    ensures multiset(Filter(where, recs))[rec] == if Satisfies(where, rec) then multiset(recs)[rec] else 0
    decreases |recs|
  {
    if recs != [] {
      var init, last := recs[..|recs| - 1], recs[|recs| - 1];
      assert recs == init + [last];
      FilterCounts(where, init, rec);
    }
  }

  /** What holds of a conjunction, a disjunction and a negation; a comparison with NULL holds of no record, and neither
      does its negation. */
  lemma Connectives(e: Expr, f: Expr, rec: Record)
    ensures Satisfies(Some(And(e, f)), rec) <==> Satisfies(Some(e), rec) && Satisfies(Some(f), rec)
    ensures Satisfies(Some(Or(e, f)), rec) <==> Satisfies(Some(e), rec) || Satisfies(Some(f), rec)
    ensures !(Satisfies(Some(e), rec) && Satisfies(Some(Not(e)), rec))
    ensures e.Cmp? && (Value(e.lhs, rec).Nil? || Value(e.rhs, rec).Nil?) ==>
              !Satisfies(Some(e), rec) && !Satisfies(Some(Not(e)), rec)
  {
  }

  /** Comparisons of numbers. */
  lemma NumbersCompare(op: CmpOp, l: Operand, r: Operand, rec: Record, x: int, y: int)
    requires Value(l, rec) == Int(x) && Value(r, rec) == Int(y)
    ensures Satisfies(Some(Cmp(op, l, r)), rec) <==>
            match op case Eq => x == y case Ne => x != y case Lt => x < y case Gt => x > y
    ensures Satisfies(Some(Not(Cmp(op, l, r))), rec) <==> !Satisfies(Some(Cmp(op, l, r)), rec)
  {
  }
}
