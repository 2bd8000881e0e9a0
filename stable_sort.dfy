/**
  The stable descending sort that `Array.prototype.sort((a, b) => key(b) - key(a))` performs.
  ECMAScript requires the sort to be stable, and a stable sort's output is fully determined by
  its input and comparator, so an insertion sort describes it exactly.
*/
module StableSort {

  /** Every element's key is at least that of every later element. */
  predicate Descending<T>(s: seq<T>, key: T -> real)
  {
    forall i, j :: 0 <= i < j < |s| ==> key(s[i]) >= key(s[j])
  }

  /** Places x behind every element of s whose key is at least key(x). */
  function Insert<T>(x: T, s: seq<T>, key: T -> real): seq<T>
    decreases |s|
  {
    if s == [] || key(s[|s| - 1]) >= key(x) then s + [x]
    else Insert(x, s[..|s| - 1], key) + [s[|s| - 1]]
  }

  /** Stable descending sort by key. */
  function Sort<T>(s: seq<T>, key: T -> real): seq<T>
  {
    if s == [] then [] else Insert(s[|s| - 1], Sort(s[..|s| - 1], key), key)
  }

  /** The elements of s whose key is v, in their order in s. */
  function WithKey<T>(s: seq<T>, key: T -> real, v: real): seq<T>
  {
    if s == [] then []
    else WithKey(s[..|s| - 1], key, v) + (if key(s[|s| - 1]) == v then [s[|s| - 1]] else [])
  }

  lemma {:induction false} InsertIsPermutation<T>(x: T, s: seq<T>, key: T -> real)
    ensures multiset(Insert(x, s, key)) == multiset(s) + multiset{x}
    decreases |s|
  {
    if !(s == [] || key(s[|s| - 1]) >= key(x)) {
      InsertIsPermutation(x, s[..|s| - 1], key);
      assert s == s[..|s| - 1] + [s[|s| - 1]];
    }
  }

  lemma {:induction false} InsertKeepsDescending<T>(x: T, s: seq<T>, key: T -> real)
    requires Descending(s, key)
    ensures Descending(Insert(x, s, key), key)
    ensures |Insert(x, s, key)| == |s| + 1
    decreases |s|
  {
    if !(s == [] || key(s[|s| - 1]) >= key(x)) {
      var init := s[..|s| - 1];
      InsertKeepsDescending(x, init, key);
      InsertIsPermutation(x, init, key);
      var r := Insert(x, init, key);
      forall i | 0 <= i < |r| ensures key(r[i]) >= key(s[|s| - 1]) {
        assert r[i] in multiset(init) + multiset{x};
        if r[i] != x {
          assert r[i] in init;
        }
      }
    }
  }

  /** The sort's output is ordered by descending key and is a permutation of its input. */
  lemma {:induction false} SortIsDescendingPermutation<T>(s: seq<T>, key: T -> real)
    ensures Descending(Sort(s, key), key)
    ensures multiset(Sort(s, key)) == multiset(s)
    ensures |Sort(s, key)| == |s|
    decreases |s|
  {
    if s != [] {
      var init := s[..|s| - 1];
      SortIsDescendingPermutation(init, key);
      InsertKeepsDescending(s[|s| - 1], Sort(init, key), key);
      InsertIsPermutation(s[|s| - 1], Sort(init, key), key);
      assert s == init + [s[|s| - 1]];
    }
  }

  lemma {:induction false} WithKeyAppend<T>(a: seq<T>, b: seq<T>, key: T -> real, v: real)
    ensures WithKey(a + b, key, v) == WithKey(a, key, v) + WithKey(b, key, v)
    decreases |b|
  {
    if b == [] {
      assert a + b == a;
    } else {
      assert (a + b)[..|a + b| - 1] == a + b[..|b| - 1];
      WithKeyAppend(a, b[..|b| - 1], key, v);
    }
  }

  lemma {:induction false} InsertKeepsKeyOrder<T>(x: T, s: seq<T>, key: T -> real, v: real)
    ensures WithKey(Insert(x, s, key), key, v) == WithKey(s + [x], key, v)
    decreases |s|
  {
    if !(s == [] || key(s[|s| - 1]) >= key(x)) {
      var init, last := s[..|s| - 1], s[|s| - 1];
      InsertKeepsKeyOrder(x, init, key, v);
      WithKeyAppend(Insert(x, init, key), [last], key, v);
      WithKeyAppend(init, [x], key, v);
      WithKeyAppend(init + [last], [x], key, v);
      WithKeyAppend(init, [last], key, v);
      assert s == init + [last];
      assert [x][..0] == [] && [last][..0] == [];
    }
  }

  /** Stability: elements with equal keys keep their relative order. */
  lemma {:induction false} SortIsStable<T>(s: seq<T>, key: T -> real, v: real)
    ensures WithKey(Sort(s, key), key, v) == WithKey(s, key, v)
    decreases |s|
  {
    if s != [] {
      var init, last := s[..|s| - 1], s[|s| - 1];
      SortIsStable(init, key, v);
      InsertKeepsKeyOrder(last, Sort(init, key), key, v);
      WithKeyAppend(Sort(init, key), [last], key, v);
      WithKeyAppend(init, [last], key, v);
      assert s == init + [last];
    }
  }

  /** One step of the shift loop: inserting x into s[..j] when s[j - 1] ranks below x. */
  lemma ShiftStep<T>(x: T, s: seq<T>, j: nat, key: T -> real)
    requires 0 < j <= |s| && key(s[j - 1]) < key(x)
    ensures Insert(x, s[..j], key) + s[j..] == Insert(x, s[..j - 1], key) + s[j - 1..]
  {
    assert s[..j][..j - 1] == s[..j - 1];
    assert s[j - 1..] == [s[j - 1]] + s[j..];
  }

  /** Moves a[i] left past the elements of the sorted prefix a[..i] that rank below it. */
  method InsertLast<T>(a: array<T>, i: nat, key: T -> real)
    requires i < a.Length
    modifies a
    ensures a[..] == Insert(old(a[i]), old(a[..i]), key) + old(a[i + 1..])
  {
    var x := a[i];
    ghost var prefix, suffix := a[..i], a[i + 1..];
    var j := i;
    assert prefix[..j] == prefix && prefix[j..] == [];
    assert a[..] == prefix[..j] + [x] + prefix[j..] + suffix;
    while j > 0 && key(a[j - 1]) < key(x)
      invariant 0 <= j <= i
      invariant a[..] == prefix[..j] + [x] + prefix[j..] + suffix
      invariant Insert(x, prefix, key) == Insert(x, prefix[..j], key) + prefix[j..]
    {
      ShiftStep(x, prefix, j, key);
      SwapStep(prefix, x, suffix, j);
      a[j - 1], a[j] := a[j], a[j - 1];
      j := j - 1;
    }
    InsertStops(x, prefix[..j], key);
  }

  /** Swapping x with the element before it moves x one place to the front. */
  lemma SwapStep<T>(prefix: seq<T>, x: T, suffix: seq<T>, j: nat)
    requires 0 < j <= |prefix|
    ensures (prefix[..j] + [x] + prefix[j..] + suffix)[j - 1 := x][j := prefix[j - 1]]
              == prefix[..j - 1] + [x] + prefix[j - 1..] + suffix
  {
  }

  /** Inserting behind a last element that ranks at least as high appends. */
  lemma InsertStops<T>(x: T, s: seq<T>, key: T -> real)
    requires s == [] || key(s[|s| - 1]) >= key(x)
    ensures Insert(x, s, key) == s + [x]
  {
  }

  /** One step of the insertion sort: inserting the first unsorted element into the sorted
      prefix extends the sorted prefix by one. */
  lemma SortStep<T>(original: seq<T>, i: nat, key: T -> real)
    requires i < |original|
    ensures |Sort(original[..i], key)| == i
    ensures (Sort(original[..i], key) + original[i..])[..i] == Sort(original[..i], key)
    ensures (Sort(original[..i], key) + original[i..])[i] == original[i]
    ensures (Sort(original[..i], key) + original[i..])[i + 1..] == original[i + 1..]
    ensures Insert(original[i], Sort(original[..i], key), key) + original[i + 1..]
              == Sort(original[..i + 1], key) + original[i + 1..]
  {
    SortIsDescendingPermutation(original[..i], key);
    assert original[..i + 1][..i] == original[..i];
  }

  /** Sorts a in place by descending key, keeping equal keys in their original order. */
  method SortInPlace<T>(a: array<T>, key: T -> real)
    modifies a
    ensures a[..] == Sort(old(a[..]), key)
  {
    ghost var original := a[..];
    var i := 0;
    assert original[..0] == [] && original[0..] == original;
    while i < a.Length
      invariant 0 <= i <= a.Length
      invariant a[..] == Sort(original[..i], key) + original[i..]
    {
      SortStep(original, i, key);
      InsertLast(a, i, key);
      i := i + 1;
    }
    assert original[..a.Length] == original && original[a.Length..] == [];
  }
}
