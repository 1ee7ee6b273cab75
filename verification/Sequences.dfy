/** Sequences without repetition. */
module Sequences {

  ghost predicate NoDuplicates<T>(s: seq<T>) {
    forall i, j | 0 <= i < j < |s| :: s[i] != s[j]
  }

  ghost function Elements<T>(s: seq<T>): set<T> { set x | x in s }

  lemma {:induction false} SizeOfElements<T>(s: seq<T>)
    requires NoDuplicates(s)
    ensures |Elements(s)| == |s|
  {
    if s != [] {
      var (before, x) := (s[..|s| - 1], s[|s| - 1]);
      SizeOfElements(before);
      assert s == before + [x];
      assert Elements(s) == Elements(before) + {x};
    }
  }

  function Without<T(==)>(s: seq<T>, x: T): seq<T> {
    if s == [] then []
    else
      var before := Without(s[..|s| - 1], x);
      if s[|s| - 1] == x then before else before + [s[|s| - 1]]
  }

  lemma {:induction false} WithoutIsExact<T>(s: seq<T>, x: T)
    requires NoDuplicates(s)
    ensures NoDuplicates(Without(s, x))
    ensures forall y :: y in Without(s, x) <==> y in s && y != x
  {
    if s != [] {
      var (before, y) := (s[..|s| - 1], s[|s| - 1]);
      WithoutIsExact(before, x);
      assert s == before + [y];
      assert y !in before;
    }
  }
}
