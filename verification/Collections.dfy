// Shared vocabulary: optional values, and the pigeonhole facts that relate the
// length of a list to the number of different values in it.
module Collections {

  datatype Option<+T> = None | Some(value: T)

  function Elements<T(==)>(xs: seq<T>): set<T> {
    set x | x in xs
  }

  predicate Distinct<T(==)>(xs: seq<T>) {
    forall i, j :: 0 <= i < j < |xs| ==> xs[i] != xs[j]
  }

  lemma {:induction false} SubsetSize<T>(a: set<T>, b: set<T>)
    requires a <= b
    ensures |a| <= |b|
    ensures |a| == |b| ==> a == b
  {
    if a != {} {
      var x :| x in a;
      SubsetSize(a - {x}, b - {x});
      if |a| == |b| {
        assert a == (a - {x}) + {x} == (b - {x}) + {x} == b;
      }
    } else if b != {} {
      assert |b| > 0;
    }
  }

  // Pigeonhole: a list collapses to fewer values exactly when it repeats one.
  lemma {:induction false} DistinctIffFull<T>(xs: seq<T>)
    ensures |Elements(xs)| <= |xs|
    ensures |Elements(xs)| == |xs| <==> Distinct(xs)
  {
    if xs != [] {
      var last, rest := xs[|xs| - 1], xs[..|xs| - 1];
      DistinctIffFull(rest);
      assert xs == rest + [last];
      assert Elements(xs) == Elements(rest) + {last};
      if last in rest {
        var i :| 0 <= i < |rest| && rest[i] == last;
        assert xs[i] == xs[|xs| - 1];
        assert Elements(xs) == Elements(rest);
      } else {
        assert Distinct(rest) ==> Distinct(xs);
        assert Distinct(xs) ==> Distinct(rest);
      }
    }
  }

  lemma DistinctInit<T>(xs: seq<T>)
    requires Distinct(xs) && xs != []
    ensures Distinct(xs[..|xs| - 1]) && xs[|xs| - 1] !in xs[..|xs| - 1]
    ensures Elements(xs) == Elements(xs[..|xs| - 1]) + {xs[|xs| - 1]}
  {
    var rest, last := xs[..|xs| - 1], xs[|xs| - 1];
    assert xs == rest + [last];
  }

  // A list without repetition is determined, up to order, by its elements.
  lemma {:induction false} DistinctMultiset<T>(xs: seq<T>)
    requires Distinct(xs)
    ensures forall x :: multiset(xs)[x] == if x in xs then 1 else 0
  {
    if xs != [] {
      var last, rest := xs[|xs| - 1], xs[..|xs| - 1];
      assert xs == rest + [last];
      DistinctMultiset(rest);
    }
  }

  lemma {:induction false} MultisetDistinct<T>(xs: seq<T>, ys: seq<T>)
    requires Distinct(xs) && multiset(xs) == multiset(ys)
    ensures Distinct(ys) && Elements(xs) == Elements(ys) && |xs| == |ys|
  {
    DistinctMultiset(xs);
    assert |multiset(xs)| == |xs| && |multiset(ys)| == |ys|;
    forall x ensures x in xs <==> x in ys {
      assert x in multiset(xs) <==> x in multiset(ys);
    }
    assert Elements(xs) == Elements(ys);
    DistinctIffFull(xs);
    DistinctIffFull(ys);
  }
}
