/** Facts about sequences. */
module Lists {

  /** Concatenation of a list of lists. */
  ghost function Flatten<T>(parts: seq<seq<T>>): (all: seq<T>) {
    if parts == [] then [] else Flatten(parts[..|parts| - 1]) + parts[|parts| - 1]
  }

  lemma {:induction false} InFlatten<T>(parts: seq<seq<T>>, v: T)
    ensures v in Flatten(parts) <==> exists i | 0 <= i < |parts| :: v in parts[i]
    decreases |parts|
  {
    if parts != [] {
      var init, last := parts[..|parts| - 1], parts[|parts| - 1];
      InFlatten(init, v);
      if i :| 0 <= i < |parts| && v in parts[i] {
        assert i < |init| ==> init[i] == parts[i];
      }
      if i :| 0 <= i < |init| && v in init[i] {
        assert parts[i] == init[i];
      }
    }
  }

  /** Rearranged sequences are equally long and hold the same elements. */
  lemma SameElements<T>(s: seq<T>, t: seq<T>)
    requires multiset(s) == multiset(t)
    ensures |s| == |t| && forall x :: x in s <==> x in t
  {
    assert |s| == |multiset(s)| && |t| == |multiset(t)|;
    forall x ensures x in s <==> x in t {
      assert x in s <==> x in multiset(s);
      assert x in t <==> x in multiset(t);
    }
  }

  lemma {:induction false} OnceOrNever<T>(s: seq<T>, x: T)
    requires forall i, j | 0 <= i < j < |s| :: s[i] != s[j]
    ensures multiset(s)[x] == if x in s then 1 else 0
    decreases |s|
  {
    if s != [] {
      var init, last := s[..|s| - 1], s[|s| - 1];
      assert s == init + [last];
      OnceOrNever(init, x);
    }
  }
}
