/** slices.SortFunc: the result is a permutation in every case, and sorted when the comparison is a
    strict weak ordering of the elements. */
module Slices {

  ghost predicate Ordering<T(!new)>(s: set<T>, cmp: (T, T) -> int) {
    && (forall x, y :: x in s && y in s ==> (cmp(x, y) < 0 <==> cmp(y, x) > 0))
    && (forall x, y, z :: x in s && y in s && z in s && cmp(x, y) <= 0 && cmp(y, z) <= 0 ==> cmp(x, z) <= 0)
  }

  ghost predicate Sorted<T>(a: seq<T>, cmp: (T, T) -> int) {
    forall i, j :: 0 <= i < j < |a| ==> cmp(a[i], a[j]) <= 0
  }

  ghost function Elements<T>(a: seq<T>): set<T> { set x | x in a }

  /** What slices.SortFunc promises. */
  ghost predicate SortResult<T(!new)>(a: seq<T>, cmp: (T, T) -> int, r: seq<T>) {
    multiset(r) == multiset(a) && (Ordering(Elements(a), cmp) ==> Sorted(r, cmp))
  }

  ghost predicate Fits<T>(r: seq<T>, x: T, j: nat, cmp: (T, T) -> int)
    requires j <= |r|
  {
    (forall i :: 0 <= i < j ==> cmp(r[i], x) <= 0) && (forall i :: j <= i < |r| ==> cmp(x, r[i]) <= 0)
  }

  /** The place of `x` in the sorted prefix, searched from its end. */
  method Place<T(!new)>(r: seq<T>, x: T, cmp: (T, T) -> int) returns (j: nat)
    ensures j <= |r|
    ensures Ordering(Elements(r) + {x}, cmp) && Sorted(r, cmp) ==> Fits(r, x, j, cmp)
  {
    j := |r|;
    while j > 0 && cmp(x, r[j - 1]) < 0
      invariant 0 <= j <= |r|
      invariant forall i :: j <= i < |r| ==> cmp(x, r[i]) <= 0
    {
      j := j - 1;
    }
    if j > 0 && Ordering(Elements(r) + {x}, cmp) && Sorted(r, cmp) {
      assert r[j - 1] in r;
      assert cmp(r[j - 1], x) <= 0;
      forall i | 0 <= i < j ensures cmp(r[i], x) <= 0 {
        if i < j - 1 { assert r[i] in r && cmp(r[i], r[j - 1]) <= 0; }
      }
    }
  }

  method SortFunc<T(!new)>(a: seq<T>, cmp: (T, T) -> int) returns (r: seq<T>)
    ensures SortResult(a, cmp, r)
  {
    r := [];
    var i := 0;
    while i < |a|
      invariant 0 <= i <= |a|
      invariant SortedTo(a, i, r, cmp)
    {
      var j := Place(r, a[i], cmp);
      InsertNext(a, i, r, j, cmp);
      r := r[..j] + [a[i]] + r[j..];
      i := i + 1;
    }
    assert a[..i] == a;
  }

  /** The first `i` elements, sorted if the comparison is an ordering. */
  ghost predicate SortedTo<T(!new)>(a: seq<T>, i: nat, r: seq<T>, cmp: (T, T) -> int)
    requires i <= |a|
  {
    multiset(r) == multiset(a[..i]) && (Ordering(Elements(a), cmp) ==> Sorted(r, cmp))
  }

  lemma InsertNext<T(!new)>(a: seq<T>, i: nat, r: seq<T>, j: nat, cmp: (T, T) -> int)
    requires i < |a| && j <= |r| && SortedTo(a, i, r, cmp)
    requires Ordering(Elements(r) + {a[i]}, cmp) && Sorted(r, cmp) ==> Fits(r, a[i], j, cmp)
    ensures SortedTo(a, i + 1, r[..j] + [a[i]] + r[j..], cmp)
  {
    if Ordering(Elements(a), cmp) {
      SubOrdering(a, r, i, cmp);
      InsertSorted(r, a[i], j, cmp);
    }
    assert r == r[..j] + r[j..];
    assert a[..i + 1] == a[..i] + [a[i]];
  }

  lemma SubOrdering<T(!new)>(a: seq<T>, r: seq<T>, i: nat, cmp: (T, T) -> int)
    requires i < |a| && multiset(r) == multiset(a[..i]) && Ordering(Elements(a), cmp)
    ensures Ordering(Elements(r) + {a[i]}, cmp)
  {
    forall x | x in r ensures x in a {
      assert x in multiset(r);
      assert x in a[..i];
    }
  }

  lemma InsertSorted<T>(r: seq<T>, x: T, j: nat, cmp: (T, T) -> int)
    requires j <= |r| && Sorted(r, cmp) && Fits(r, x, j, cmp)
    ensures Sorted(r[..j] + [x] + r[j..], cmp)
  {}

  lemma PlacedLast<T(!new)>(r: seq<T>, x: T, cmp: (T, T) -> int)
    requires r != [] && Ordering(Elements(r) + {x}, cmp) && Sorted(r, cmp) && cmp(r[|r| - 1], x) <= 0
    ensures forall i :: 0 <= i < |r| ==> cmp(r[i], x) <= 0
  {
    var s, last := Elements(r) + {x}, r[|r| - 1];
    forall i | 0 <= i < |r| ensures cmp(r[i], x) <= 0 {
      assert r[i] in s && last in s && x in s;
      if i < |r| - 1 { assert cmp(r[i], last) <= 0; }
    }
  }

  lemma PrefixOrdering<T(!new)>(r: seq<T>, n: nat, x: T, cmp: (T, T) -> int)
    requires n <= |r| && Ordering(Elements(r) + {x}, cmp) && Sorted(r, cmp)
    ensures Ordering(Elements(r[..n]) + {x}, cmp) && Sorted(r[..n], cmp)
  {
    forall y | y in Elements(r[..n]) + {x} ensures y in Elements(r) + {x} {}
  }

  lemma {:induction false} PlaceExists<T(!new)>(r: seq<T>, x: T, cmp: (T, T) -> int) returns (j: nat)
    requires Ordering(Elements(r) + {x}, cmp) && Sorted(r, cmp)
    ensures j <= |r| && Fits(r, x, j, cmp)
    decreases |r|
  {
    var n := |r| - 1;
    if r == [] {
      j := 0;
    } else if cmp(r[n], x) <= 0 {
      PlacedLast(r, x, cmp);
      j := |r|;
    } else {
      PrefixOrdering(r, n, x, cmp);
      j := PlaceExists(r[..n], x, cmp);
      assert r[n] in Elements(r) + {x} && x in Elements(r) + {x};
      FitsLonger(r, x, j, cmp);
    }
  }

  lemma FitsLonger<T>(r: seq<T>, x: T, j: nat, cmp: (T, T) -> int)
    requires r != [] && j < |r| && Fits(r[..|r| - 1], x, j, cmp) && cmp(x, r[|r| - 1]) <= 0
    ensures Fits(r, x, j, cmp)
  {
    forall i | 0 <= i < |r| - 1 ensures r[..|r| - 1][i] == r[i] {}
  }

  /** There always is a result. */
  lemma {:induction false} SortExists<T(!new)>(a: seq<T>, cmp: (T, T) -> int) returns (r: seq<T>)
    ensures SortResult(a, cmp, r)
    decreases |a|
  {
    if !Ordering(Elements(a), cmp) || a == [] {
      r := a;
    } else {
      var init, last := a[..|a| - 1], a[|a| - 1];
      assert a == init + [last];
      assert Ordering(Elements(init), cmp) by {
        forall x | x in init ensures x in a {}
      }
      var r0 := SortExists(init, cmp);
      SubOrdering(a, r0, |a| - 1, cmp);
      var j := PlaceExists(r0, last, cmp);
      InsertSorted(r0, last, j, cmp);
      assert r0 == r0[..j] + r0[j..];
      r := r0[..j] + [last] + r0[j..];
    }
  }

  /** Two elements that compare as equal can change places in a sorted list. */
  lemma SwapTied<T(!new)>(r: seq<T>, i: nat, j: nat, cmp: (T, T) -> int)
    requires i < j < |r| && Ordering(Elements(r), cmp) && Sorted(r, cmp) && cmp(r[j], r[i]) <= 0
    ensures Sorted(r[i := r[j]][j := r[i]], cmp)
  {
    var r' := r[i := r[j]][j := r[i]];
    forall k | 0 <= k < |r| ensures r[k] in Elements(r) {}
    forall k | i < k < j ensures cmp(r[j], r[k]) <= 0 && cmp(r[k], r[i]) <= 0 {
      assert cmp(r[i], r[k]) <= 0 && cmp(r[k], r[j]) <= 0;
    }
    forall k, l | 0 <= k < l < |r| ensures cmp(r'[k], r'[l]) <= 0 {}
  }

  lemma SameMembers<T>(a: seq<T>, r: seq<T>)
    requires multiset(r) == multiset(a)
    ensures |r| == |a| && forall x :: x in r <==> x in a
  {
    assert |multiset(r)| == |r| && |multiset(a)| == |a|;
    forall x ensures x in r <==> x in a {
      assert x in r <==> x in multiset(r);
      assert x in a <==> x in multiset(a);
    }
  }

  lemma TwoPlaces<T>(a: seq<T>, i: nat, j: nat)
    requires i < j < |a| && a[i] == a[j]
    ensures multiset(a)[a[i]] >= 2
  {
    var front, back := a[..j], a[j..];
    assert a == front + back;
    assert a[i] in front by { assert front[i] == a[i]; }
    assert a[i] in back by { assert back[0] == a[j]; }
  }

  lemma {:induction false} OncePerElement<T>(a: seq<T>)
    requires forall i, j :: 0 <= i < j < |a| ==> a[i] != a[j]
    ensures forall x :: multiset(a)[x] <= 1
  {
    if a != [] {
      var init := a[..|a| - 1];
      OncePerElement(init);
      assert a == init + [a[|a| - 1]];
    }
  }

  /** A permutation of a duplicate-free list is duplicate-free. */
  lemma PermutationDistinct<T>(a: seq<T>, r: seq<T>)
    requires multiset(r) == multiset(a) && forall i, j :: 0 <= i < j < |a| ==> a[i] != a[j]
    ensures forall i, j :: 0 <= i < j < |r| ==> r[i] != r[j]
  {
    OncePerElement(a);
    forall i, j | 0 <= i < j < |r| && r[i] == r[j] ensures false {
      TwoPlaces(r, i, j);
    }
  }

  lemma {:induction false} DistinctCovers<T>(l: seq<T>, s: set<T>)
    requires (forall i, j :: 0 <= i < j < |l| ==> l[i] != l[j]) && |l| == |s| && forall i :: 0 <= i < |l| ==> l[i] in s
    ensures forall x :: x in s ==> x in l
    decreases |l|
  {
    if l == [] {
      assert s == {};
    } else {
      var rest := s - {l[0]};
      assert s == rest + {l[0]};
      DistinctCovers(l[1..], rest);
    }
  }
}
