/** Finding the shard key in a statement. */
module Parser {
  import opened Text
  import opened Cells
  import opened Sql

  /** How the parser library prints an operand. Text with characters that need escaping prints
      differently, but such text is no number either way. */
  function OperandText(o: Operand): (s: string) {
    match o
    case ColumnRef(name) => name
    case Number(n) => FormatInt(n)
    case Quoted(text) => "'" + text + "'"
    case Plus(l, r) => OperandText(l) + " + " + OperandText(r)
  }

  function StripQuotes(s: string): (r: string) {
    if |s| >= 2 && s[0] == '\'' && s[|s| - 1] == '\'' then s[1..|s| - 1] else s
  }

  /** `equalityInExpr`: a top-level conjunct `column = operand`, leftmost first. */
  function EqualityInExpr(e: Expr, column: string): (r: Option<string>) {
    match e
    case And(l, r) =>
      var found := EqualityInExpr(l, column);
      if found.Some? then found else EqualityInExpr(r, column)
    case Cmp(op, lhs, rhs) =>
      if op.Eq? && lhs.ColumnRef? && OperandText(lhs) == column then Some(StripQuotes(OperandText(rhs))) else None
    case _ => None
  }

  /** `column = value` is a top-level conjunct, and no equality on the column stands to its left. */
  ghost predicate LeftmostEquality(e: Expr, column: string, value: Operand) {
    match e
    case And(l, r) =>
      LeftmostEquality(l, column, value) || (LeftmostEquality(r, column, value) && !HasEquality(l, column))
    case Cmp(op, lhs, rhs) => op == Eq && lhs == ColumnRef(column) && rhs == value
    case _ => false
  }

  ghost predicate HasEquality(e: Expr, column: string) {
    exists value :: LeftmostEquality(e, column, value)
  }

  /** The scan finds the leftmost equality on the column, if and only if there is one. */
  lemma {:induction false} LeftmostFound(e: Expr, column: string)
    ensures EqualityInExpr(e, column).Some? <==> HasEquality(e, column)
    ensures forall value | LeftmostEquality(e, column, value) ::
              EqualityInExpr(e, column) == Some(StripQuotes(OperandText(value)))
  {
    match e
    case And(l, r) =>
      LeftmostFound(l, column);
      LeftmostFound(r, column);
      if value :| LeftmostEquality(l, column, value) {
        assert LeftmostEquality(e, column, value);
      } else if value :| LeftmostEquality(r, column, value) {
        assert LeftmostEquality(e, column, value);
      }
      forall value | LeftmostEquality(e, column, value)
        ensures EqualityInExpr(e, column) == Some(StripQuotes(OperandText(value)))
      {
      }
    case Cmp(op, lhs, rhs) =>
      assert op == Eq && lhs == ColumnRef(column) ==> LeftmostEquality(e, column, rhs);
    case _ =>
  }

  /** A number, quoted or not, is read back. */
  lemma NumberText(n: int)
    requires IsInt64(n)
    ensures ParseInt(StripQuotes(OperandText(Number(n)))) == Some(n)
    ensures ParseInt(StripQuotes(OperandText(Quoted(FormatInt(n))))) == Some(n)
  {
    var s := FormatInt(n);
    ParseFormat(n);
    assert s[0] != '\'';
    assert StripQuotes(s) == s;
    assert ("'" + s + "'")[1..|s| + 1] == s;
  }

  function FirstIndex(names: seq<string>, name: string): (r: Option<nat>)
    ensures r.Some? ==> r.value < |names| && names[r.value] == name && name !in names[..r.value]
    ensures r.None? ==> name !in names
  {
    if names == [] then None
    else
      var init, last := names[..|names| - 1], names[|names| - 1];
      var r := FirstIndex(init, name);
      if r.Some? then r else if last == name then Some(|names| - 1) else None
  }

  function EqualityInWhere(where: Option<Expr>, column: string): (r: Option<string>) {
    if where.None? then None else EqualityInExpr(where.value, column)
  }

  /** The text of the shard key a statement names, if any. */
  function KeyText(stmt: Statement, column: string): (r: Option<string>) {
    match stmt
    case Select(q) => EqualityInWhere(q.where, column)
    case Update(_, _, where) => EqualityInWhere(where, column)
    case Delete(_, where) => EqualityInWhere(where, column)
    case Insert(_, columns, rows) =>
      var idx := FirstIndex(columns, column);
      if idx.Some? && |rows| == 1 && idx.value < |rows[0]|
      then Some(StripQuotes(OperandText(rows[0][idx.value])))
      else None
    case OtherStatement(_) => None
  }

  lemma FirstIndexIs(names: seq<string>, name: string, i: nat)
    requires i < |names| && names[i] == name && name !in names[..i]
    ensures FirstIndex(names, name) == Some(i)
  {
    var r := FirstIndex(names, name);
    assert forall k | 0 <= k < i :: names[..i][k] == names[k];
    assert forall k | 0 <= k < r.value :: names[..r.value][k] == names[k];
  }

  /** `EqualityValue`: for an INSERT, a loop finds the position of the shard column. */
  method EqualityValue(stmt: Statement, column: string) returns (r: Option<string>)
    ensures r == KeyText(stmt, column)
  {
    match stmt
    case Insert(_, columns, rows) =>
      var colIndex := -1;
      var i := 0;
      while i < |columns|
        invariant 0 <= i <= |columns|
        invariant colIndex == -1 && column !in columns[..i]
      {
        if columns[i] == column {
          FirstIndexIs(columns, column, i);
          colIndex := i;
          break;
        }
        i := i + 1;
      }
      if colIndex == -1 || |rows| != 1 || colIndex >= |rows[0]| {
        return None;
      }
      return Some(StripQuotes(OperandText(rows[0][colIndex])));
    case _ =>
      return KeyText(stmt, column);
  }

  function TableName(stmt: Statement): (r: Option<string>) {
    match stmt
    case Select(q) => Some(q.table)
    case Insert(t, _, _) => Some(t)
    case Update(t, _, _) => Some(t)
    case Delete(t, _) => Some(t)
    case OtherStatement(_) => None
  }

  predicate IsWrite(stmt: Statement) {
    !stmt.Select? && (stmt.OtherStatement? ==> stmt.writes)
  }

  // ----- the key found is the key of every row the statement is about -----

  /** An identifier as the parser prints it: it does not start like a number or a quoted text. */
  predicate IsIdentifier(name: string) {
    name != [] && !IsDigit(name[0]) && name[0] != '+' && name[0] != '-' && name[0] != '\''
  }

  predicate Named(o: Operand) {
    match o
    case ColumnRef(name) => IsIdentifier(name)
    case Plus(l, r) => Named(l) && Named(r)
    case _ => true
  }

  predicate WellNamed(e: Expr) {
    match e
    case And(l, r) => WellNamed(l) && WellNamed(r)
    case Or(l, r) => WellNamed(l) && WellNamed(r)
    case Not(a) => WellNamed(a)
    case Cmp(_, l, r) => Named(l) && Named(r)
  }

  lemma {:induction false} OperandNotEmpty(o: Operand)
    requires Named(o)
    ensures |OperandText(o)| >= 1
  {
  }

  /** If an operand's text reads as a number, the operand is that number, or a text that reads so. */
  lemma NumericOperand(o: Operand, rec: Record)
    requires Named(o) && ParseInt(StripQuotes(OperandText(o))).Some?
    ensures !Value(o, rec).Nil? && AsNumber(Value(o, rec)) == ParseInt(StripQuotes(OperandText(o)))
    ensures o.Number? || o.Quoted?
  {
    var s := OperandText(o);
    match o
    case ColumnRef(name) =>
      assert false;
    case Number(n) =>
      assert StripQuotes(s) == s;
      FormatBack(n);
    case Quoted(text) =>
      assert StripQuotes(s) == text;
    case Plus(l, r) =>
      PlusNotNumeric(l, r);
      assert false;
  }

  lemma FormatBack(n: int)
    requires ParseInt(FormatInt(n)).Some?
    ensures ParseInt(FormatInt(n)) == Some(n)
  {
    if n < 0 { assert FormatInt(n)[1..] == Decimal(-n); }
  }

  lemma PlusNotNumeric(l: Operand, r: Operand)
    requires Named(l) && Named(r)
    ensures ParseInt(StripQuotes(OperandText(Plus(l, r)))).None?
  {
    var s := OperandText(Plus(l, r));
    var t := StripQuotes(s);
    OperandNotEmpty(l);
    OperandNotEmpty(r);
    var i := |OperandText(l)|;
    assert s[i] == ' ';
    var j := if t == s then i else i - 1;
    assert t[j] == ' ' && !IsDigit(' ');
    if ParseInt(t).Some? {
      ParsesAreNumeric(t);
    }
  }

  /** Three-valued logic: if the scan finds `column = v` with a number `v`, every row that satisfies
      the WHERE clause carries exactly that key. */
  lemma {:induction false} EqualityBindsKey(e: Expr, column: string, rec: Record, key: int)
    requires WellNamed(e)
    requires EqualityInExpr(e, column).Some? && ParseInt(EqualityInExpr(e, column).value) == Some(key)
    requires Eval(e, rec).True?
    ensures column in rec && AsNumber(rec[column]) == Some(key)
  {
    match e
    case And(l, r) =>
      if EqualityInExpr(l, column).Some? {
        EqualityBindsKey(l, column, rec, key);
      } else {
        EqualityBindsKey(r, column, rec, key);
      }
    case Cmp(op, lhs, rhs) =>
      NumericOperand(rhs, rec);
  }
}
