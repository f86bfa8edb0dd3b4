/** Decimal rendering and parsing of 64-bit integers, and the byte order on strings. */
module Text {

  datatype Option<+T> = None | Some(value: T)

  const MIN_INT64: int := -0x8000_0000_0000_0000
  const MAX_INT64: int := 0x7fff_ffff_ffff_ffff

  predicate IsInt64(n: int) {
    MIN_INT64 <= n <= MAX_INT64
  }

  predicate IsDigit(c: char) {
    '0' <= c <= '9'
  }

  function DigitChar(d: nat): (c: char)
    requires d < 10
    ensures IsDigit(c) && DigitValue(c) == d
  {
    '0' + d as char
  }

  function DigitValue(c: char): (d: nat)
    requires IsDigit(c)
  {
    (c - '0') as nat
  }

  predicate AllDigits(s: string) {
    forall i | 0 <= i < |s| :: IsDigit(s[i])
  }

  /** Decimal digits without leading zeros. */
  function Decimal(n: nat): (s: string)
    ensures s != [] && AllDigits(s) && DecimalValue(s) == n
  {
    if n < 10 then [DigitChar(n)]
    else
      var s := Decimal(n / 10) + [DigitChar(n % 10)];
      assert s[..|s| - 1] == Decimal(n / 10);
      s
  }

  function DecimalValue(s: string): (n: nat)
    requires AllDigits(s)
  {
    if s == [] then 0 else 10 * DecimalValue(s[..|s| - 1]) + DigitValue(s[|s| - 1])
  }

  /** `strconv.FormatInt(n, 10)`. */
  function FormatInt(n: int): (s: string)
    ensures s != [] && (forall i | 0 <= i < |s| :: IsDigit(s[i]) || s[i] == '-')
    ensures s[0] == '-' <==> n < 0
  {
    if n < 0 then "-" + Decimal(-n) else Decimal(n)
  }

  /** `strconv.ParseInt(s, 10, 64)`: an optional sign, at least one digit, and in range. */
  function ParseInt(s: string): (r: Option<int>)
    ensures r.Some? ==> IsInt64(r.value)
  {
    if s == [] then None
    else
      var signed := s[0] == '-' || s[0] == '+';
      var digits := if signed then s[1..] else s;
      if digits == [] || !AllDigits(digits) then None
      else
        var v: int := DecimalValue(digits);
        var n := if s[0] == '-' then -v else v;
        if IsInt64(n) then Some(n) else None
  }

  /** What a number is printed as parses back to it. */
  lemma ParseFormat(n: int)
    requires IsInt64(n)
    ensures ParseInt(FormatInt(n)) == Some(n)
  {
    if n < 0 {
      assert FormatInt(n)[1..] == Decimal(-n);
    } else {
      assert IsDigit(Decimal(n)[0]);
    }
  }

  /** Rendering is one to one, beyond the 64-bit range too. */
  lemma FormatInjective(m: int, n: int)
    requires FormatInt(m) == FormatInt(n)
    ensures m == n
  {
    if m < 0 {
      assert FormatInt(m)[1..] == Decimal(-m) && FormatInt(n)[1..] == Decimal(-n);
    }
  }

  /** A string that parses has only digits and at most a leading sign. */
  lemma ParsesAreNumeric(s: string)
    requires ParseInt(s).Some?
    ensures forall i | 0 <= i < |s| :: IsDigit(s[i]) || (i == 0 && (s[i] == '-' || s[i] == '+'))
  {
    var signed := s[0] == '-' || s[0] == '+';
    if signed {
      assert forall i | 1 <= i < |s| :: s[i] == s[1..][i - 1];
    }
  }

  /** Byte-wise order of strings, as Go compares them. */
  predicate StrLess(s: string, t: string) {
    t != [] && (s == [] || s[0] < t[0] || (s[0] == t[0] && StrLess(s[1..], t[1..])))
  }

  /** `s` ends, or has a smaller character, where the two first differ. */
  predicate EarlierAt(s: string, t: string, n: nat) {
    n <= |s| && n < |t| && s[..n] == t[..n] && (n < |s| ==> s[n] < t[n])
  }

  /** The order is decided at the first position where the strings differ; a proper prefix comes first. */
  lemma {:induction false} StrLessIff(s: string, t: string)
    ensures StrLess(s, t) <==> exists n :: EarlierAt(s, t, n)
    decreases |s|
  {
    if s == [] {
      assert t != [] ==> EarlierAt(s, t, 0);
    } else if t != [] {
      StrLessIff(s[1..], t[1..]);
      if n: nat :| EarlierAt(s[1..], t[1..], n) && s[0] == t[0] {
        assert s[..n + 1] == [s[0]] + s[1..][..n] && t[..n + 1] == [t[0]] + t[1..][..n];
        assert EarlierAt(s, t, n + 1);
      }
      if s[0] < t[0] {
        assert EarlierAt(s, t, 0);
      }
      if n: nat :| EarlierAt(s, t, n) && n > 0 {
        assert s[0] == s[..n][0] == t[..n][0] == t[0];
        assert s[1..][..n - 1] == s[..n][1..] && t[1..][..n - 1] == t[..n][1..];
        assert EarlierAt(s[1..], t[1..], n - 1);
      }
    }
  }

  lemma {:induction false} StrTotal(s: string, t: string)
    ensures StrLess(s, t) || StrLess(t, s) || s == t
    ensures !(StrLess(s, t) && StrLess(t, s))
    ensures !StrLess(s, s)
    decreases |s|
  {
    if s != [] {
      StrTotal(s[1..], s[1..]);
      if t != [] {
        StrTotal(s[1..], t[1..]);
        assert s[0] == t[0] && s[1..] == t[1..] ==> s == t by {
          assert s == [s[0]] + s[1..] && t == [t[0]] + t[1..];
        }
      }
    }
  }

  lemma {:induction false} StrTrans(s: string, t: string, u: string)
    requires StrLess(s, t) && StrLess(t, u)
    ensures StrLess(s, u)
    decreases |s|
  {
    if s != [] && s[0] == t[0] && t[0] == u[0] {
      StrTrans(s[1..], t[1..], u[1..]);
    }
  }
}
