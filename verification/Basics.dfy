/** Small vocabulary shared by the other modules: options, duplicate-free sequences and
    the cardinality facts about finite sets that the counter invariants need. */
module Basics {

  datatype Option<+T> = None | Some(value: T)

  /** The values of a C++ int. */
  type Int32 = x: int | -0x8000_0000 <= x < 0x8000_0000

  ghost predicate NoDup<T>(s: seq<T>) {
    forall i, j :: 0 <= i < j < |s| ==> s[i] != s[j]
  }

  ghost function Elems<T>(s: seq<T>): set<T> {
    set x | x in s
  }

  function Max(a: int, b: int): int {
    if a < b then b else a
  }

  lemma {:induction false} ElemsCard<T>(s: seq<T>)
    requires NoDup(s)
    ensures |Elems(s)| == |s|
  {
    if s != [] {
      var init, last := s[..|s| - 1], s[|s| - 1];
      assert s == init + [last];
      ElemsCard(init);
      assert Elems(s) == Elems(init) + {last};
    }
  }

  lemma NoDupSnoc<T>(s: seq<T>, x: T)
    requires NoDup(s) && x !in s
    ensures NoDup(s + [x])
    ensures Elems(s + [x]) == Elems(s) + {x}
  {
  }

  lemma {:induction false} SubsetCard<T>(a: set<T>, b: set<T>)
    requires a <= b
    ensures |a| <= |b|
    ensures |a| == |b| ==> a == b
    decreases a
  {
    if a != {} {
      var x :| x in a;
      SubsetCard(a - {x}, b - {x});
      assert a == (a - {x}) + {x} && b == (b - {x}) + {x};
    }
  }

  /** Removing a subset removes exactly its cardinality. */
  lemma DifferenceCard<T>(a: set<T>, b: set<T>)
    requires b <= a
    ensures |a - b| == |a| - |b|
  {
    assert a == (a - b) + b;
  }

  /** A non-empty finite set of scored entries has one of maximal score. */
  lemma {:induction false} MaximalEntry<T>(z: map<T, int>, keys: set<T>) returns (p: T)
    requires keys != {} && keys <= z.Keys
    ensures p in keys && forall q :: q in keys ==> z[q] <= z[p]
    decreases keys
  {
    p :| p in keys;
    var rest := keys - {p};
    if rest != {} {
      var m := MaximalEntry(z, rest);
      assert keys == rest + {p};
      if z[p] < z[m] { p := m; }
    } else {
      assert keys == {p};
    }
  }
}
