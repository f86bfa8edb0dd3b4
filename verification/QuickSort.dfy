/** The hand-written in-place quicksort of the merge engine. */
module QuickSort {
  import opened Cells

  /** `less(i, j)`: compares by position in the array that is being rearranged. */
  predicate LessAt(a: array<Row>, keys: seq<Key>, i: int, j: int)
    requires 0 <= i < a.Length && 0 <= j < a.Length && Wide(keys, a[i]) && Wide(keys, a[j])
    reads a
  {
    RowLess(keys, a[i], a[j])
  }

  /** `t` is `s` with the rows in [lo, hi) rearranged. */
  ghost predicate Perm(s: seq<Row>, t: seq<Row>, lo: nat, hi: nat)
    requires lo <= hi <= |s|
  {
    && |t| == |s| && s[..lo] == t[..lo] && s[hi..] == t[hi..]
    && multiset(s[lo..hi]) == multiset(t[lo..hi])
  }

  ghost function Swapped(s: seq<Row>, i: nat, j: nat): (t: seq<Row>)
    requires i < |s| && j < |s|
  {
    s[i := s[j]][j := s[i]]
  }

  lemma SwapPerm(s: seq<Row>, i: nat, j: nat, lo: nat, hi: nat)
    requires lo <= i < hi <= |s| && lo <= j < hi
    ensures Perm(s, Swapped(s, i, j), lo, hi)
  {
    var t := Swapped(s, i, j);
    assert t[lo..hi] == s[lo..hi][i - lo := s[lo..hi][j - lo]][j - lo := s[lo..hi][i - lo]];
    assert s[..lo] == t[..lo];
    assert s[hi..] == t[hi..];
  }

  lemma PermTrans(s: seq<Row>, t: seq<Row>, u: seq<Row>, lo: nat, hi: nat)
    requires lo <= hi <= |s| && Perm(s, t, lo, hi) && Perm(t, u, lo, hi)
    ensures Perm(s, u, lo, hi)
  {
  }

  lemma SwapStep(before: seq<Row>, s: seq<Row>, t: seq<Row>, i: nat, j: nat, lo: nat, hi: nat)
    requires lo <= i < hi <= |before| && lo <= j < hi && Perm(before, s, lo, hi)
    requires t == Swapped(s, i, j)
    ensures Perm(before, t, lo, hi)
  {
    SwapPerm(s, i, j, lo, hi);
    PermTrans(before, s, t, lo, hi);
  }

  /** A rearrangement inside a smaller range is one inside the larger range. */
  lemma PermWiden(s: seq<Row>, t: seq<Row>, lo: nat, hi: nat, lo': nat, hi': nat)
    requires lo' <= lo <= hi <= hi' <= |s| && Perm(s, t, lo, hi)
    ensures Perm(s, t, lo', hi')
  {
    assert s[lo'..hi'] == s[lo'..lo] + s[lo..hi] + s[hi..hi'];
    assert t[lo'..hi'] == t[lo'..lo] + t[lo..hi] + t[hi..hi'];
    assert s[lo'..lo] == s[..lo][lo'..] && t[lo'..lo] == t[..lo][lo'..];
    assert s[hi..hi'] == s[hi..][..hi' - hi] && t[hi..hi'] == t[hi..][..hi' - hi];
    assert s[..lo'] == s[..lo][..lo'] && t[..lo'] == t[..lo][..lo'];
    assert s[hi'..] == s[hi..][hi' - hi..] && t[hi'..] == t[hi..][hi' - hi..];
  }

  /** The rows found in the range after a rearrangement are the rows that were there. */
  lemma PermRows(s: seq<Row>, t: seq<Row>, lo: nat, hi: nat, k: nat) returns (k': nat)
    requires lo <= hi <= |s| && Perm(s, t, lo, hi) && k < |s|
    ensures k' < |s| && s[k'] == t[k] && (lo <= k < hi ==> lo <= k' < hi) && (!(lo <= k < hi) ==> k' == k)
  {
    if lo <= k < hi {
      assert t[lo..hi][k - lo] == t[k];
      assert t[k] in multiset(t[lo..hi]);
      assert t[k] in s[lo..hi];
      var i :| 0 <= i < hi - lo && s[lo..hi][i] == t[k];
      k' := lo + i;
    } else {
      k' := k;
      if k < lo { assert s[..lo][k] == t[..lo][k]; } else { assert s[hi..][k - hi] == t[hi..][k - hi]; }
    }
  }

  ghost predicate EachWide(keys: seq<Key>, s: seq<Row>) {
    forall k | 0 <= k < |s| :: Wide(keys, s[k])
  }

  /** What a partition leaves behind: smaller rows, the pivot at `p`, then the rest. */
  ghost predicate Split(keys: seq<Key>, s: seq<Row>, lo: int, p: int, hi: int)
    requires 0 <= lo <= p < hi <= |s| && EachWide(keys, s)
  {
    && (forall k | lo <= k < p :: RowLess(keys, s[k], s[p]))
    && (forall k | p < k < hi :: !RowLess(keys, s[k], s[p]))
  }

  /** Halfway through, with the pivot still at `hi`: smaller rows up to `i`, the rest up to `j`. */
  ghost predicate Scanned(keys: seq<Key>, s: seq<Row>, lo: int, i: int, j: int, hi: int)
    requires 0 <= lo <= i <= j <= hi < |s| && EachWide(keys, s)
  {
    && (forall k | lo <= k < i :: RowLess(keys, s[k], s[hi]))
    && (forall k | i <= k < j :: !RowLess(keys, s[k], s[hi]))
  }

  lemma ScanSwap(keys: seq<Key>, s: seq<Row>, lo: int, i: int, j: int, hi: int)
    requires 0 <= lo <= i <= j < hi < |s| && EachWide(keys, s) && Scanned(keys, s, lo, i, j, hi)
    requires RowLess(keys, s[j], s[hi])
    ensures EachWide(keys, Swapped(s, i, j)) && Scanned(keys, Swapped(s, i, j), lo, i + 1, j + 1, hi)
  {
    hide RowLess, Wide;
  }

  lemma ScanEnd(keys: seq<Key>, s: seq<Row>, lo: int, i: int, hi: int)
    requires 0 <= lo <= i <= hi < |s| && EachWide(keys, s) && Scanned(keys, s, lo, i, hi, hi)
    ensures EachWide(keys, Swapped(s, i, hi)) && Split(keys, Swapped(s, i, hi), lo, i, hi + 1)
  {
    hide RowLess, Wide;
    RowIrrefl(keys, s[hi]);
  }

  lemma {:induction false} RowIrrefl(keys: seq<Key>, r: Row)
    requires Wide(keys, r)
    ensures !RowLess(keys, r, r)
    decreases |keys|
  {
    if keys != [] {
      assert forall k | 0 <= k < |keys[1..]| :: keys[1..][k] == keys[k + 1];
      RowIrrefl(keys[1..], r);
    }
  }

  method Swap(a: array<Row>, i: nat, j: nat)
    requires i < a.Length && j < a.Length
    modifies a
    ensures a[..] == Swapped(old(a[..]), i, j)
  {
    a[i], a[j] := a[j], a[i];
  }

  /** Lomuto partition: the pivot waits at `hi` until the end, although the rows move around it. */
  method Partition(a: array<Row>, keys: seq<Key>, lo: int, hi: int) returns (p: int)
    requires 0 <= lo <= hi < a.Length && EachWide(keys, a[..])
    modifies a
    ensures lo <= p <= hi
    ensures Perm(old(a[..]), a[..], lo, hi + 1)
    ensures EachWide(keys, a[..]) && Split(keys, a[..], lo, p, hi + 1)
  {
    hide RowLess, Wide, Perm, Scanned, Split, EachWide, Swapped;
    ghost var before := a[..];
    PermSelf(before, lo, hi + 1);
    ScanStart(keys, before, lo, hi);
    var i := lo;
    var j := lo;
    while j < hi
      invariant lo <= i <= j <= hi
      invariant Perm(before, a[..], lo, hi + 1)
      invariant EachWide(keys, a[..])
      invariant Scanned(keys, a[..], lo, i, j, hi)
    {
      ghost var s := a[..];
      WideAt(keys, s, j);
      WideAt(keys, s, hi);
      if LessAt(a, keys, j, hi) {
        Swap(a, i, j);
        ScanSwap(keys, s, lo, i, j, hi);
        SwapStep(before, s, a[..], i, j, lo, hi + 1);
        i := i + 1;
      } else {
        ScanSkip(keys, s, lo, i, j, hi);
      }
      j := j + 1;
    }
    ghost var s := a[..];
    Swap(a, i, hi);
    ScanEnd(keys, s, lo, i, hi);
    SwapStep(before, s, a[..], i, hi, lo, hi + 1);
    p := i;
  }

  lemma WideAt(keys: seq<Key>, s: seq<Row>, k: nat)
    requires EachWide(keys, s) && k < |s|
    ensures Wide(keys, s[k])
  {
  }

  lemma ScanStart(keys: seq<Key>, s: seq<Row>, lo: int, hi: int)
    requires 0 <= lo <= hi < |s| && EachWide(keys, s)
    ensures Scanned(keys, s, lo, lo, lo, hi)
  {
  }

  lemma ScanSkip(keys: seq<Key>, s: seq<Row>, lo: int, i: int, j: int, hi: int)
    requires 0 <= lo <= i <= j < hi < |s| && EachWide(keys, s) && Scanned(keys, s, lo, i, j, hi)
    requires !RowLess(keys, s[j], s[hi])
    ensures Scanned(keys, s, lo, i, j + 1, hi)
  {
  }

  lemma PermSelf(s: seq<Row>, lo: nat, hi: nat)
    requires lo <= hi <= |s|
    ensures Perm(s, s, lo, hi)
  {
  }

  // ----- sorting -----

  /** Each ORDER BY column is homogeneous over all the rows. */
  ghost predicate Homogeneous(keys: seq<Key>, s: seq<Row>) {
    EachWide(keys, s) && forall i, j | 0 <= i < |s| && 0 <= j < |s| :: RowsAlike(keys, s[i], s[j])
  }

  /** No row in [lo, hi) sorts before one that precedes it there. */
  ghost predicate Sorted(keys: seq<Key>, s: seq<Row>, lo: int, hi: int)
    requires 0 <= lo && hi <= |s| && EachWide(keys, s)
  {
    forall i, j | lo <= i < j < hi :: !RowLess(keys, s[j], s[i])
  }

  lemma PermKeeps(keys: seq<Key>, s: seq<Row>, t: seq<Row>, lo: nat, hi: nat)
    requires lo <= hi <= |s| == |t| && Perm(s, t, lo, hi) && EachWide(keys, s)
    ensures EachWide(keys, t) && (Homogeneous(keys, s) ==> Homogeneous(keys, t))
  {
    hide Perm, Wide, RowsAlike;
    forall k | 0 <= k < |t| ensures exists k' | 0 <= k' < |s| :: t[k] == s[k'] {
      var k' := PermRows(s, t, lo, hi, k);
    }
  }

  /** Sorting one side of the pivot leaves it a split. */
  lemma SplitKept(keys: seq<Key>, s: seq<Row>, t: seq<Row>, lo: nat, p: nat, hi: nat, lo': nat, hi': nat)
    requires lo <= p < hi <= |s| == |t| && EachWide(keys, s) && EachWide(keys, t) && Split(keys, s, lo, p, hi)
    requires lo <= lo' <= hi' <= hi && (hi' <= p || p < lo') && Perm(s, t, lo', hi')
    ensures Split(keys, t, lo, p, hi)
  {
    hide Perm, Wide, RowLess;
    var p' := PermRows(s, t, lo', hi', p);
    forall k | lo <= k < hi
      ensures k < p ==> RowLess(keys, t[k], t[p])
      ensures k > p ==> !RowLess(keys, t[k], t[p])
    {
      var k' := PermRows(s, t, lo', hi', k);
    }
  }

  /** A split with both sides sorted is sorted. */
  lemma SplitSorted(keys: seq<Key>, s: seq<Row>, lo: nat, p: nat, hi: nat)
    requires lo <= p < hi <= |s| && Homogeneous(keys, s) && Split(keys, s, lo, p, hi)
    requires Sorted(keys, s, lo, p) && Sorted(keys, s, p + 1, hi)
    ensures Sorted(keys, s, lo, hi)
  {
    hide Wide, RowLess, RowsAlike;
    forall i, j | lo <= i < j < hi ensures !RowLess(keys, s[j], s[i]) {
      if i < p <= j {
        RowTrans(keys, s[j], s[i], s[p]);
        RowAsym(keys, s[i], s[p]);
      }
    }
  }

  /** Sorts [lo, hi] in place. Whatever the comparison does, the rows are only rearranged; when every
      ORDER BY column is homogeneous they end up sorted. */
  method QSort(a: array<Row>, keys: seq<Key>, lo: int, hi: int)
    requires 0 <= lo <= hi + 1 <= a.Length && EachWide(keys, a[..])
    modifies a
    ensures Perm(old(a[..]), a[..], lo, hi + 1) && EachWide(keys, a[..])
    ensures Homogeneous(keys, old(a[..])) ==> Sorted(keys, a[..], lo, hi + 1)
    decreases hi - lo + 1
  {
    hide Wide, RowLess, RowsAlike, Perm, Split, Homogeneous, EachWide;
    ghost var s0 := a[..];
    PermSelf(s0, lo, hi + 1);
    if lo < hi {
      var p := Partition(a, keys, lo, hi);
      ghost var s1 := a[..];
      QSort(a, keys, lo, p - 1);
      ghost var s2 := a[..];
      SplitKept(keys, s1, s2, lo, p, hi + 1, lo, p);
      QSort(a, keys, p + 1, hi);
      ghost var s3 := a[..];
      SplitKept(keys, s2, s3, lo, p, hi + 1, p + 1, hi + 1);
      Assemble(keys, s0, s1, s2, s3, lo, p, hi + 1);
    }
  }

  lemma Assemble(keys: seq<Key>, s0: seq<Row>, s1: seq<Row>, s2: seq<Row>, s3: seq<Row>, lo: nat, p: nat, hi: nat)
    requires lo <= p < hi <= |s0| == |s1| == |s2| == |s3|
    requires EachWide(keys, s0) && EachWide(keys, s1) && EachWide(keys, s2) && EachWide(keys, s3)
    requires Perm(s0, s1, lo, hi) && Perm(s1, s2, lo, p) && Perm(s2, s3, p + 1, hi)
    requires Split(keys, s3, lo, p, hi)
    requires Homogeneous(keys, s1) ==> Sorted(keys, s2, lo, p)
    requires Homogeneous(keys, s2) ==> Sorted(keys, s3, p + 1, hi)
    ensures Perm(s0, s3, lo, hi) && (Homogeneous(keys, s0) ==> Sorted(keys, s3, lo, hi))
  {
    hide Wide, RowLess, RowsAlike, Perm, Split, Homogeneous, EachWide;
    PermWiden(s1, s2, lo, p, lo, hi);
    PermWiden(s2, s3, p + 1, hi, lo, hi);
    PermTrans(s0, s1, s2, lo, hi);
    PermTrans(s0, s2, s3, lo, hi);
    PermKeeps(keys, s0, s1, lo, hi);
    PermKeeps(keys, s1, s2, lo, p);
    PermKeeps(keys, s2, s3, p + 1, hi);
    if Homogeneous(keys, s0) {
      LeftKept(keys, s2, s3, lo, p, hi);
      SplitSorted(keys, s3, lo, p, hi);
    }
  }

  lemma LeftKept(keys: seq<Key>, s: seq<Row>, t: seq<Row>, lo: nat, p: nat, hi: nat)
    requires lo <= p < hi <= |s| && EachWide(keys, s) && EachWide(keys, t) && Perm(s, t, p + 1, hi)
    requires Sorted(keys, s, lo, p)
    ensures Sorted(keys, t, lo, p)
  {
    hide Wide, RowLess;
    assert forall k | 0 <= k < p :: t[k] == s[k] by {
      forall k | 0 <= k < p ensures t[k] == s[k] { assert t[..p + 1][k] == s[..p + 1][k]; }
    }
  }

  /** The numbers in a column never decrease in ascending order and never increase in descending order. */
  ghost predicate InOrder(k: Key, s: seq<Row>) {
    forall i, j | 0 <= i < j < |s| && k.idx < |s[i]| && k.idx < |s[j]| && s[i][k.idx].Int? && s[j][k.idx].Int? ::
      if k.dir == Asc then s[i][k.idx].i <= s[j][k.idx].i else s[i][k.idx].i >= s[j][k.idx].i
  }

  lemma SortedInOrder(keys: seq<Key>, s: seq<Row>)
    requires keys != [] && EachWide(keys, s) && Sorted(keys, s, 0, |s|)
    ensures InOrder(keys[0], s)
  {
    var k := keys[0].idx;
    forall i, j | 0 <= i < j < |s| && s[i][k].Int? && s[j][k].Int?
      ensures if keys[0].dir == Asc then s[i][k].i <= s[j][k].i else s[i][k].i >= s[j][k].i
    {
      if s[i][k].i != s[j][k].i {
        NumbersDecide(keys, s[j], s[i], 0, s[j][k].i, s[i][k].i);
      }
    }
  }

  /** `quickSort`. */
  method Sort(a: array<Row>, keys: seq<Key>)
    requires EachWide(keys, a[..])
    modifies a
    ensures multiset(a[..]) == multiset(old(a[..])) && EachWide(keys, a[..])
    ensures Homogeneous(keys, old(a[..])) ==> Sorted(keys, a[..], 0, a.Length)
    ensures Homogeneous(keys, old(a[..])) && keys != [] ==> InOrder(keys[0], a[..])
  {
    if a.Length >= 2 {
      QSort(a, keys, 0, a.Length - 1);
      assert a[0..a.Length] == a[..] && old(a[0..a.Length]) == old(a[..]);
      if Homogeneous(keys, old(a[..])) && keys != [] {
        SortedInOrder(keys, a[..]);
      }
    }
  }
}
