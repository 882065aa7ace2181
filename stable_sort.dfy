/**
 * Stable sorting by a real-valued key, as `Array.prototype.sort` does with a
 * comparator `(a, b) => key(a) - key(b)` (src/pages/Techmap.jsx, lines
 * 193-197 and 378). The engine's algorithm is not part of this model: an
 * insertion sort stands for it, and `StableSortIsUnique` shows that every
 * stable sort yields the same sequence.
 */
module StableSort {

  /** Ascending by key. */
  ghost predicate SortedBy<T>(s: seq<T>, key: T -> real)
  {
    forall i, j :: 0 <= i < j < |s| ==> key(s[i]) <= key(s[j])
  }

  /** The elements of `s` whose key is `v`, in the order they appear in `s`. */
  function KeyClass<T>(s: seq<T>, key: T -> real, v: real): seq<T>
  {
    if s == [] then []
    else KeyClass(s[..|s| - 1], key, v) + (if key(s[|s| - 1]) == v then [s[|s| - 1]] else [])
  }

  /** `t` is `s` sorted by key with elements of equal key in their original order. */
  ghost predicate IsStableSortOf<T>(t: seq<T>, s: seq<T>, key: T -> real)
  {
    SortedBy(t, key) && forall v :: KeyClass(t, key, v) == KeyClass(s, key, v)
  }

  /** Put `x` after every element of `t` whose key is not greater than its own. */
  function Insert<T>(t: seq<T>, x: T, key: T -> real): (r: seq<T>)
    ensures |r| == |t| + 1
  {
    if t == [] || key(t[|t| - 1]) <= key(x) then
      t + [x]
    else
      var init := t[..|t| - 1];
      assert t == init + [t[|t| - 1]];
      Insert(init, x, key) + [t[|t| - 1]]
  }

  /** Insertion sort: each element in turn is inserted into the sorted prefix. */
  function InsertionSort<T>(s: seq<T>, key: T -> real): (r: seq<T>)
    ensures |r| == |s|
    ensures multiset(r) == multiset(s)
  {
    if s == [] then
      []
    else
      assert s == s[..|s| - 1] + [s[|s| - 1]];
      InsertPermutes(InsertionSort(s[..|s| - 1], key), s[|s| - 1], key);
      Insert(InsertionSort(s[..|s| - 1], key), s[|s| - 1], key)
  }

  lemma {:induction false} InsertPermutes<T>(t: seq<T>, x: T, key: T -> real)
    ensures multiset(Insert(t, x, key)) == multiset(t) + multiset{x}
  {
    if t != [] && key(t[|t| - 1]) > key(x) {
      var init := t[..|t| - 1];
      assert t == init + [t[|t| - 1]];
      InsertPermutes(init, x, key);
    }
  }

  lemma KeyClassAppend<T>(s: seq<T>, y: T, key: T -> real, v: real)
    ensures KeyClass(s + [y], key, v) == KeyClass(s, key, v) + (if key(y) == v then [y] else [])
  {
    assert (s + [y])[..|s + [y]| - 1] == s;
  }

  lemma {:induction false} InKeyClass<T>(s: seq<T>, key: T -> real, v: real, x: T)
    requires x in KeyClass(s, key, v)
    ensures x in s && key(x) == v
  {
    if s != [] {
      var init := s[..|s| - 1];
      assert s == init + [s[|s| - 1]];
      if x in KeyClass(init, key, v) {
        InKeyClass(init, key, v, x);
      }
    }
  }

  lemma {:induction false} InsertSorted<T>(t: seq<T>, x: T, key: T -> real)
    requires SortedBy(t, key)
    ensures SortedBy(Insert(t, x, key), key)
  {
    if t == [] || key(t[|t| - 1]) <= key(x) {
    } else {
      var init := t[..|t| - 1];
      InsertSorted(init, x, key);
      var r := Insert(init, x, key);
      var last := t[|t| - 1];
      InsertPermutes(init, x, key);
      // every element of r is x or an element of init, hence has key <= key(last)
      forall i | 0 <= i < |r|
        ensures key(r[i]) <= key(last)
      {
        assert r[i] in multiset(r);
        assert r[i] in multiset(init) + multiset{x};
        if r[i] != x {
          assert r[i] in multiset(init);
          var k :| 0 <= k < |init| && init[k] == r[i];
          assert init[k] == t[k];
        }
      }
    }
  }

  lemma {:induction false} InsertKeyClass<T>(t: seq<T>, x: T, key: T -> real, v: real)
    ensures KeyClass(Insert(t, x, key), key, v) == KeyClass(t, key, v) + (if key(x) == v then [x] else [])
  {
    if t == [] || key(t[|t| - 1]) <= key(x) {
      KeyClassAppend(t, x, key, v);
    } else {
      var init := t[..|t| - 1];
      var last := t[|t| - 1];
      assert t == init + [last];
      InsertKeyClass(init, x, key, v);
      KeyClassAppend(Insert(init, x, key), last, key, v);
      KeyClassAppend(init, last, key, v);
    }
  }

  /** The insertion sort is sorted, a permutation, and keeps equal keys in order. */
  lemma {:induction false} InsertionSortIsStable<T>(s: seq<T>, key: T -> real)
    ensures IsStableSortOf(InsertionSort(s, key), s, key)
    ensures multiset(InsertionSort(s, key)) == multiset(s)
  {
    if s != [] {
      var init := s[..|s| - 1];
      var x := s[|s| - 1];
      assert s == init + [x];
      InsertionSortIsStable(init, key);
      InsertSorted(InsertionSort(init, key), x, key);
      forall v
        ensures KeyClass(InsertionSort(s, key), key, v) == KeyClass(s, key, v)
      {
        InsertKeyClass(InsertionSort(init, key), x, key, v);
        KeyClassAppend(init, x, key, v);
      }
    }
  }

  /** A non-empty sequence has a non-empty key class: the one of its last element. */
  lemma LastInOwnClass<T>(w: seq<T>, key: T -> real)
    requires w != []
    ensures KeyClass(w, key, key(w[|w| - 1])) == KeyClass(w[..|w| - 1], key, key(w[|w| - 1])) + [w[|w| - 1]]
  {
  }

  /** In a sorted sequence no key exceeds the last one. */
  lemma LastKeyIsLargest<T>(u: seq<T>, key: T -> real, x: T)
    requires SortedBy(u, key) && x in u
    ensures key(x) <= key(u[|u| - 1])
  {
    var k :| 0 <= k < |u| && u[k] == x;
    if k < |u| - 1 {
      assert key(u[k]) <= key(u[|u| - 1]);
    }
  }

  /** Sorted sequences with the same classes for their two last keys end in the same element. */
  lemma SameLast<T>(t: seq<T>, u: seq<T>, key: T -> real)
    requires SortedBy(t, key) && SortedBy(u, key) && t != [] && u != []
    requires KeyClass(t, key, key(t[|t| - 1])) == KeyClass(u, key, key(t[|t| - 1]))
    requires KeyClass(t, key, key(u[|u| - 1])) == KeyClass(u, key, key(u[|u| - 1]))
    ensures t[|t| - 1] == u[|u| - 1]
  {
    var a, b := t[|t| - 1], u[|u| - 1];
    LastInOwnClass(t, key);
    LastInOwnClass(u, key);
    // each last key occurs in the other sequence, so neither is smaller
    InKeyClass(u, key, key(a), a);
    LastKeyIsLargest(u, key, a);
    InKeyClass(t, key, key(b), b);
    LastKeyIsLargest(t, key, b);
    var ct := KeyClass(t, key, key(a));
    assert ct[|ct| - 1] == a;
  }

  /** Dropping a common last element keeps the key classes equal. */
  lemma DropLastClasses<T>(t: seq<T>, u: seq<T>, t': seq<T>, u': seq<T>, key: T -> real)
    requires t != [] && u != [] && t[|t| - 1] == u[|u| - 1]
    requires t' == t[..|t| - 1] && u' == u[..|u| - 1]
    requires forall v :: KeyClass(t, key, v) == KeyClass(u, key, v)
    ensures forall v :: KeyClass(t', key, v) == KeyClass(u', key, v)
  {
    var a := t[|t| - 1];
    forall v
      ensures KeyClass(t', key, v) == KeyClass(u', key, v)
    {
      var extra := if key(a) == v then [a] else [];
      var kt, ku := KeyClass(t', key, v), KeyClass(u', key, v);
      assert kt + extra == ku + extra by {
        assert KeyClass(t, key, v) == KeyClass(u, key, v);
      }
      assert (kt + extra)[..|kt|] == kt;
      assert (ku + extra)[..|ku|] == ku;
    }
  }

  lemma InsertionSortSorted<T>(s: seq<T>, key: T -> real)
    ensures SortedBy(InsertionSort(s, key), key)
  {
    InsertionSortIsStable(s, key);
  }

  /** Two sorted sequences with the same key classes are equal. */
  lemma {:induction false} SortedClassesDetermine<T>(t: seq<T>, u: seq<T>, key: T -> real)
    requires SortedBy(t, key) && SortedBy(u, key)
    requires forall v :: KeyClass(t, key, v) == KeyClass(u, key, v)
    ensures t == u
    decreases |t|
  {
    if t == [] && u == [] {
      return;
    }
    if t == [] || u == [] {
      var w := if t == [] then u else t;
      LastInOwnClass(w, key);
      assert false;
    }
    assert KeyClass(t, key, key(t[|t| - 1])) == KeyClass(u, key, key(t[|t| - 1]));
    assert KeyClass(t, key, key(u[|u| - 1])) == KeyClass(u, key, key(u[|u| - 1]));
    SameLast(t, u, key);
    DropLastClasses(t, u, t[..|t| - 1], u[..|u| - 1], key);
    SortedClassesDetermine(t[..|t| - 1], u[..|u| - 1], key);
    assert t == t[..|t| - 1] + [t[|t| - 1]];
    assert u == u[..|u| - 1] + [u[|u| - 1]];
  }

  /** Every stable sort of `s` is the insertion sort of `s`. */
  lemma StableSortIsUnique<T>(t: seq<T>, s: seq<T>, key: T -> real)
    requires IsStableSortOf(t, s, key)
    ensures t == InsertionSort(s, key)
  {
    InsertionSortIsStable(s, key);
    SortedClassesDetermine(t, InsertionSort(s, key), key);
  }

  /** A sequence already sorted by key is left as it is. */
  lemma SortedIsFixed<T>(s: seq<T>, key: T -> real)
    requires SortedBy(s, key)
    ensures InsertionSort(s, key) == s
  {
    StableSortIsUnique(s, s, key);
  }

  /** Sorting one more element of `s` inserts it into the sorted prefix. */
  lemma InsertionSortStep<T>(s: seq<T>, i: nat, key: T -> real)
    requires i < |s|
    ensures InsertionSort(s[..i + 1], key) == Insert(InsertionSort(s[..i], key), s[i], key)
  {
    assert s[..i + 1][..i] == s[..i];
  }

  /** `x` lands right after the last key not greater than its own. */
  lemma {:induction false} InsertAt<T>(t: seq<T>, x: T, key: T -> real, j: nat)
    requires j <= |t| && (j == 0 || key(t[j - 1]) <= key(x))
    requires forall k :: j <= k < |t| ==> key(t[k]) > key(x)
    ensures Insert(t, x, key) == t[..j] + [x] + t[j..]
    decreases |t|
  {
    if j == |t| {
      assert t[..j] == t && t[j..] == [];
    } else {
      var init := t[..|t| - 1];
      var last := t[|t| - 1];
      InsertAt(init, x, key, j);
      assert init[..j] == t[..j];
      assert init[j..] + [last] == t[j..];
    }
  }

  /** One step of the sort: moves `a[i]` left past the larger keys before it. */
  method InsertInPlace<T>(a: array<T>, i: nat, key: T -> real)
    requires i < a.Length
    modifies a
    ensures a[..i + 1] == Insert(old(a[..i]), old(a[i]), key)
    ensures a[i + 1..] == old(a[i + 1..])
  {
    var x := a[i];
    ghost var t := a[..i];
    ghost var rest := a[i + 1..];
    var j := i;
    assert t[..j] == t && t[j..] == [];
    assert a[..] == t[..j] + [a[j]] + t[j..] + rest;
    while j > 0 && key(a[j - 1]) > key(x)
      invariant 0 <= j <= i
      invariant a[..] == t[..j] + [a[j]] + t[j..] + rest
      invariant forall k :: j <= k < i ==> key(t[k]) > key(x)
    {
      assert a[j - 1] == t[j - 1];
      assert t[..j] == t[..j - 1] + [t[j - 1]];
      a[j] := a[j - 1];
      j := j - 1;
      assert a[..] == t[..j] + [a[j]] + t[j..] + rest;
    }
    a[j] := x;
    assert a[..] == (t[..j] + [x] + t[j..]) + rest;
    InsertAt(t, x, key, j);
  }

  /** `a.sort((x, y) => key(x) - key(y))`: reorders `a` in place into its stable sort. */
  method SortInPlace<T>(a: array<T>, key: T -> real)
    modifies a
    ensures a[..] == InsertionSort(old(a[..]), key)
  {
    ghost var s := a[..];
    var i := 0;
    while i < a.Length
      invariant 0 <= i <= a.Length
      invariant a[..i] == InsertionSort(s[..i], key)
      invariant a[i..] == s[i..]
    {
      ghost var sorted := a[..i];
      assert a[i] == s[i] && a[i + 1..] == s[i + 1..] by {
        assert a[i..][0] == s[i..][0];
        assert a[i..][1..] == a[i + 1..] && s[i..][1..] == s[i + 1..];
      }
      InsertInPlace(a, i, key);
      InsertionSortStep(s, i, key);
      i := i + 1;
    }
    assert s[..a.Length] == s;
  }
}
