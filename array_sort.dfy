/**
 * `Array.prototype.sort(compareFn)` as the table uses it: a stable sort, in
 * place, driven by a comparator that returns a negative number when its first
 * argument must come first. The result is specified by StableSort, a stable
 * insertion sort on sequences, and proved a permutation, ordered and stable
 * for every consistent comparator.
 */
module ArraySort {

  /** a must come before b. */
  predicate Before<T>(compare: (T, T) -> int, a: T, b: T)
  {
    compare(a, b) < 0
  }

  /**
   * What a consistent comparator guarantees: "a before b" is asymmetric, and
   * "not before" is transitive (so equal-ranked elements form classes).
   */
  ghost predicate Consistent<T(!new)>(compare: (T, T) -> int)
  {
    && (forall a, b :: Before(compare, a, b) ==> !Before(compare, b, a))
    && (forall a, b, c :: !Before(compare, a, b) && !Before(compare, b, c) ==> !Before(compare, a, c))
  }

  /** Elements with the same key are never ordered against each other. */
  ghost predicate KeyCompatible<T(!new), K>(compare: (T, T) -> int, key: T -> K)
  {
    forall a, b :: Before(compare, a, b) ==> key(a) != key(b)
  }

  /** Inserting x into a sorted list behind every element it need not precede. */
  function Insert<T>(s: seq<T>, x: T, compare: (T, T) -> int): (r: seq<T>)
    ensures |r| == |s| + 1
  {
    if s == [] then [x]
    else if Before(compare, x, s[|s| - 1]) then Insert(s[..|s| - 1], x, compare) + [s[|s| - 1]]
    else s + [x]
  }

  /** The stable sort: each element inserted, in input order, behind its equals. */
  function StableSort<T>(s: seq<T>, compare: (T, T) -> int): (r: seq<T>)
    ensures |r| == |s|
  {
    if s == [] then [] else Insert(StableSort(s[..|s| - 1], compare), s[|s| - 1], compare)
  }

  /** No element has to go before an earlier one. */
  predicate SortedBy<T>(s: seq<T>, compare: (T, T) -> int)
  {
    forall i, j :: 0 <= i < j < |s| ==> !Before(compare, s[j], s[i])
  }

  /** The elements whose key is k, in their order. */
  function Select<T, K(==)>(s: seq<T>, key: T -> K, k: K): seq<T>
  {
    if s == [] then [] else (if key(s[0]) == k then [s[0]] else []) + Select(s[1..], key, k)
  }

  lemma {:induction false} InsertPermutes<T>(s: seq<T>, x: T, compare: (T, T) -> int)
    ensures multiset(Insert(s, x, compare)) == multiset(s) + multiset{x}
    decreases |s|
  {
    if s != [] && Before(compare, x, s[|s| - 1]) {
      assert s == s[..|s| - 1] + [s[|s| - 1]];
      InsertPermutes(s[..|s| - 1], x, compare);
    }
  }

  /** The sorted list is a permutation of its input. */
  lemma {:induction false} StableSortPermutes<T>(s: seq<T>, compare: (T, T) -> int)
    ensures multiset(StableSort(s, compare)) == multiset(s)
    decreases |s|
  {
    if s != [] {
      assert s == s[..|s| - 1] + [s[|s| - 1]];
      StableSortPermutes(s[..|s| - 1], compare);
      InsertPermutes(StableSort(s[..|s| - 1], compare), s[|s| - 1], compare);
    }
  }

  lemma {:induction false} InsertSorted<T(!new)>(s: seq<T>, x: T, compare: (T, T) -> int)
    requires Consistent(compare)
    requires SortedBy(s, compare)
    ensures SortedBy(Insert(s, x, compare), compare)
    decreases |s|
  {
    if s != [] {
      var init, last := s[..|s| - 1], s[|s| - 1];
      var r := Insert(s, x, compare);
      if Before(compare, x, last) {
        var front := Insert(init, x, compare);
        InsertSorted(init, x, compare);
        InsertPermutes(init, x, compare);
        assert r == front + [last];
        forall i | 0 <= i < |front|
          ensures !Before(compare, last, front[i])
        {
          assert front[i] in multiset(front);
          if front[i] != x {
            assert front[i] in multiset(init);
            var k :| 0 <= k < |init| && init[k] == front[i];
            assert s[k] == init[k];
          }
        }
      } else {
        assert r == s + [x];
        forall i | 0 <= i < |s| - 1
          ensures !Before(compare, x, s[i])
        {
          assert !Before(compare, last, s[i]);
        }
      }
    }
  }

  /** The sorted list respects the comparator. */
  lemma {:induction false} StableSortSorted<T(!new)>(s: seq<T>, compare: (T, T) -> int)
    requires Consistent(compare)
    ensures SortedBy(StableSort(s, compare), compare)
    decreases |s|
  {
    if s != [] {
      StableSortSorted(s[..|s| - 1], compare);
      InsertSorted(StableSort(s[..|s| - 1], compare), s[|s| - 1], compare);
    }
  }

  lemma {:induction false} SelectAppend<T, K>(a: seq<T>, b: seq<T>, key: T -> K, k: K)
    ensures Select(a + b, key, k) == Select(a, key, k) + Select(b, key, k)
    decreases |a|
  {
    if a == [] {
      assert a + b == b;
    } else {
      var head := if key(a[0]) == k then [a[0]] else [];
      assert (a + b)[0] == a[0] && (a + b)[1..] == a[1..] + b;
      assert Select(a + b, key, k) == head + Select(a[1..] + b, key, k);
      SelectAppend(a[1..], b, key, k);
      assert Select(a, key, k) == head + Select(a[1..], key, k);
    }
  }

  lemma {:induction false} InsertSelect<T(!new), K>(s: seq<T>, x: T, compare: (T, T) -> int, key: T -> K, k: K)
    requires KeyCompatible(compare, key)
    ensures Select(Insert(s, x, compare), key, k) == Select(s, key, k) + Select([x], key, k)
    decreases |s|
  {
    if s != [] {
      var init, last := s[..|s| - 1], s[|s| - 1];
      assert s == init + [last];
      SelectAppend(init, [last], key, k);
      if Before(compare, x, last) {
        InsertSelect(init, x, compare, key, k);
        SelectAppend(Insert(init, x, compare), [last], key, k);
        assert Select([x], key, k) == [] || Select([last], key, k) == [];
      } else {
        SelectAppend(s, [x], key, k);
      }
    }
  }

  /** Stability: elements with equal keys keep their relative order. */
  lemma {:induction false} StableSortStable<T(!new), K>(s: seq<T>, compare: (T, T) -> int, key: T -> K, k: K)
    requires KeyCompatible(compare, key)
    ensures Select(StableSort(s, compare), key, k) == Select(s, key, k)
    decreases |s|
  {
    if s != [] {
      var init, last := s[..|s| - 1], s[|s| - 1];
      assert s == init + [last];
      StableSortStable(init, compare, key, k);
      InsertSelect(StableSort(init, compare), last, compare, key, k);
      SelectAppend(init, [last], key, k);
    }
  }

  /** Sorting one more element inserts it into the sorted prefix. */
  lemma StableSortStep<T>(s: seq<T>, i: int, compare: (T, T) -> int)
    requires 0 <= i < |s|
    ensures StableSort(s[..i + 1], compare) == Insert(StableSort(s[..i], compare), s[i], compare)
  {
    assert s[..i + 1][..i] == s[..i];
  }

  /** Moving x past an element it must precede. */
  lemma InsertPast<T>(s: seq<T>, x: T, j: int, compare: (T, T) -> int)
    requires 0 < j <= |s| && Before(compare, x, s[j - 1])
    ensures Insert(s[..j], x, compare) == Insert(s[..j - 1], x, compare) + [s[j - 1]]
  {
    assert s[..j][..j - 1] == s[..j - 1];
  }

  /** x stops behind the first element, from the right, that it need not precede. */
  lemma InsertStop<T>(s: seq<T>, x: T, j: int, compare: (T, T) -> int)
    requires 0 <= j <= |s| && (j == 0 || !Before(compare, x, s[j - 1]))
    ensures Insert(s[..j], x, compare) == s[..j] + [x]
  {
  }

  /**
   * The state of InsertInPlace while x travels left: s is sorted with a gap at
   * j (the elements at and after the gap moved one place right), and the
   * elements passed so far are exactly those x must go before.
   */
  ghost predicate Shifting<T>(s: seq<T>, sorted: seq<T>, rest: seq<T>, x: T, j: int, compare: (T, T) -> int)
  {
    && 0 <= j <= |sorted|
    && |s| == |sorted| + 1 + |rest|
    && s[..j] == sorted[..j]
    && s[j + 1..] == sorted[j..] + rest
    && Insert(sorted, x, compare) == Insert(sorted[..j], x, compare) + sorted[j..]
  }

  lemma ShiftingStart<T>(s: seq<T>, i: int, compare: (T, T) -> int)
    requires 0 <= i < |s|
    ensures Shifting(s, s[..i], s[i + 1..], s[i], i, compare)
  {
    assert s[..i][..i] == s[..i] && s[..i][i..] == [];
  }

  /** Copying the element left of the gap into the gap moves the gap one place left. */
  lemma ShiftingStep<T>(s: seq<T>, sorted: seq<T>, rest: seq<T>, x: T, j: int, compare: (T, T) -> int)
    requires Shifting(s, sorted, rest, x, j, compare)
    requires 0 < j && Before(compare, x, s[j - 1])
    ensures Shifting(s[j := s[j - 1]], sorted, rest, x, j - 1, compare)
  {
    assert s[j - 1] == s[..j][j - 1] == sorted[j - 1];
    InsertPast(sorted, x, j, compare);
    assert sorted[j - 1..] == [sorted[j - 1]] + sorted[j..];
    var t := s[j := s[j - 1]];
    assert t[..j - 1] == s[..j - 1] == sorted[..j][..j - 1];
    assert t[j..] == [sorted[j - 1]] + s[j + 1..];
  }

  /** Dropping x into the gap completes the insertion. */
  lemma ShiftingDone<T>(s: seq<T>, sorted: seq<T>, rest: seq<T>, x: T, j: int, compare: (T, T) -> int)
    requires Shifting(s, sorted, rest, x, j, compare)
    requires j == 0 || !Before(compare, x, s[j - 1])
    ensures s[j := x][..|sorted| + 1] == Insert(sorted, x, compare)
    ensures s[j := x][|sorted| + 1..] == rest
  {
    assert j > 0 ==> s[j - 1] == s[..j][j - 1] == sorted[j - 1];
    InsertStop(sorted, x, j, compare);
    var t := s[j := x];
    var inserted := sorted[..j] + [x] + sorted[j..];
    assert Insert(sorted, x, compare) == inserted;
    forall k | 0 <= k < |t|
      ensures t[k] == (inserted + rest)[k]
    {
      if k < j {
        assert t[k] == s[..j][k];
      } else if k > j {
        assert t[k] == s[j + 1..][k - j - 1];
      }
    }
    assert t == inserted + rest;
  }

  /** A new array holding the elements of s, in order. */
  method FromSeq<T>(s: seq<T>) returns (a: array<T>)
    ensures fresh(a) && a[..] == s
  {
    a := new T[|s|](i requires 0 <= i < |s| => s[i]);
  }

  /** One step of the sort: a[i] is moved left past the elements it must precede. */
  method InsertInPlace<T>(a: array<T>, i: int, compare: (T, T) -> int)
    requires 0 <= i < a.Length
    modifies a
    ensures a[..i + 1] == Insert(old(a[..i]), old(a[i]), compare)
    ensures a[i + 1..] == old(a[i + 1..])
  {
    var x := a[i];
    ghost var sorted, rest := a[..i], a[i + 1..];
    ShiftingStart(a[..], i, compare);
    var j := i;
    while j > 0 && compare(x, a[j - 1]) < 0
      invariant 0 <= j <= i
      invariant Shifting(a[..], sorted, rest, x, j, compare)
    {
      ShiftingStep(a[..], sorted, rest, x, j, compare);
      a[j] := a[j - 1];
      j := j - 1;
    }
    ShiftingDone(a[..], sorted, rest, x, j, compare);
    a[j] := x;
  }

  /** `a.sort(compare)`: the array ends up holding the stable sort of what it held. */
  method SortInPlace<T>(a: array<T>, compare: (T, T) -> int)
    modifies a
    ensures a[..] == StableSort(old(a[..]), compare)
  {
    ghost var input := a[..];
    var i := 0;
    while i < a.Length
      invariant 0 <= i <= a.Length
      invariant a[..i] == StableSort(input[..i], compare)
      invariant a[i..] == input[i..]
    {
      StableSortStep(input, i, compare);
      InsertInPlace(a, i, compare);
      assert a[i + 1..] == input[i + 1..];
      i := i + 1;
    }
    assert input[..a.Length] == input;
  }
}
