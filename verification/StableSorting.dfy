/** Stable sorting by a descending key, and what looking up, filtering and removing mean
    for the list in its original order. */
module StableSorting {
  import opened Wrappers

  /** Inserts before the first element with a smaller key. */
  function Insert<T>(sorted: seq<T>, x: T, key: T -> int): seq<T> {
    if sorted == [] then [x]
    else if key(sorted[0]) < key(x) then [x] + sorted
    else [sorted[0]] + Insert(sorted[1..], x, key)
  }

  function Sorted<T>(s: seq<T>, key: T -> int): seq<T> {
    if s == [] then [] else Insert(Sorted(s[..|s| - 1], key), s[|s| - 1], key)
  }

  predicate IsSorted<T>(s: seq<T>, key: T -> int) {
    forall i, j :: 0 <= i < j < |s| ==> key(s[i]) >= key(s[j])
  }

  predicate All<T>(s: seq<T>, p: T -> bool) {
    forall k :: 0 <= k < |s| ==> p(s[k])
  }

  lemma {:induction false} InsertSorts<T>(sorted: seq<T>, x: T, key: T -> int)
    requires IsSorted(sorted, key)
    ensures IsSorted(Insert(sorted, x, key), key)
    ensures Insert(sorted, x, key)[0] == if sorted == [] || key(sorted[0]) < key(x) then x else sorted[0]
  {
    if sorted != [] && key(sorted[0]) >= key(x) {
      InsertSorts(sorted[1..], x, key);
    }
  }

  lemma {:induction false} SortedSorts<T>(s: seq<T>, key: T -> int)
    ensures IsSorted(Sorted(s, key), key)
  {
    if s != [] {
      SortedSorts(s[..|s| - 1], key);
      InsertSorts(Sorted(s[..|s| - 1], key), s[|s| - 1], key);
    }
  }

  lemma {:induction false} AllInsert<T>(sorted: seq<T>, x: T, key: T -> int, p: T -> bool)
    ensures All(Insert(sorted, x, key), p) <==> All(sorted, p) && p(x)
  {
    if sorted == [] {
      assert [x][0] == x;
    } else {
      AllInsert(sorted[1..], x, key, p);
      AllFirst(sorted[0], sorted[1..], p);
      AllFirst(sorted[0], Insert(sorted[1..], x, key), p);
      AllFirst(x, sorted, p);
      assert sorted == [sorted[0]] + sorted[1..];
    }
  }

  lemma AllFirst<T>(x: T, s: seq<T>, p: T -> bool)
    ensures All([x] + s, p) <==> p(x) && All(s, p)
  {
    if All([x] + s, p) {
      assert ([x] + s)[0] == x;
      assert forall k :: 0 <= k < |s| ==> s[k] == ([x] + s)[k + 1];
    }
  }

  lemma {:induction false} AllSorted<T>(s: seq<T>, key: T -> int, p: T -> bool)
    ensures All(Sorted(s, key), p) <==> All(s, p)
  {
    if s != [] {
      AllSorted(s[..|s| - 1], key, p);
      AllInsert(Sorted(s[..|s| - 1], key), s[|s| - 1], key, p);
    }
  }

  lemma {:induction false} InsertAtEnd<T>(s: seq<T>, x: T, key: T -> int)
    requires forall k :: 0 <= k < |s| ==> key(s[k]) >= key(x)
    ensures Insert(s, x, key) == s + [x]
  {
    if s != [] {
      InsertAtEnd(s[1..], x, key);
    }
  }

  /** Sorting a sorted list changes nothing, so adding one element and sorting is
      inserting it. */
  lemma {:induction false} SortedFixed<T>(s: seq<T>, key: T -> int)
    requires IsSorted(s, key)
    ensures Sorted(s, key) == s
  {
    if s != [] {
      var n := |s| - 1;
      SortedFixed(s[..n], key);
      InsertAtEnd(s[..n], s[n], key);
    }
  }

  lemma ResortNext<T>(sorted: seq<T>, x: T, key: T -> int)
    requires IsSorted(sorted, key)
    ensures Sorted(sorted + [x], key) == Insert(sorted, x, key)
  {
    assert (sorted + [x])[..|sorted|] == sorted;
    SortedFixed(sorted, key);
  }

  lemma SortedNext<T>(s: seq<T>, x: T, key: T -> int)
    ensures Sorted(s + [x], key) == Insert(Sorted(s, key), x, key)
  {
    assert (s + [x])[..|s|] == s;
  }

  // ----- looking up

  /** The index of the first element that satisfies `p`; `|s|` if there is none. */
  function FirstIndex<T>(s: seq<T>, p: T -> bool): (i: nat)
    ensures i <= |s|
    ensures i < |s| ==> p(s[i])
    ensures forall k :: 0 <= k < i ==> !p(s[k])
  {
    if s == [] || p(s[0]) then 0 else 1 + FirstIndex(s[1..], p)
  }

  /** `i` is the element that satisfies `p` with the greatest key, the earliest such. */
  ghost predicate IsBest<T>(s: seq<T>, p: T -> bool, key: T -> int, i: nat) {
    && i < |s| && p(s[i])
    && (forall k :: 0 <= k < |s| && p(s[k]) ==> key(s[k]) <= key(s[i]))
    && (forall k :: 0 <= k < i && p(s[k]) ==> key(s[k]) < key(s[i]))
  }

  lemma {:induction false} FirstOfInsert<T>(sorted: seq<T>, x: T, key: T -> int, p: T -> bool)
    requires IsSorted(sorted, key)
    ensures var i, ins := FirstIndex(sorted, p), Insert(sorted, x, key);
            var j := FirstIndex(ins, p);
            if p(x) && (i == |sorted| || key(sorted[i]) < key(x)) then j < |ins| && ins[j] == x
            else if i < |sorted| then j < |ins| && ins[j] == sorted[i]
            else j == |ins|
  {
    if sorted != [] {
      if key(sorted[0]) < key(x) {
        assert ([x] + sorted)[1..] == sorted;
      } else {
        FirstOfInsert(sorted[1..], x, key, p);
        var rest := Insert(sorted[1..], x, key);
        assert ([sorted[0]] + rest)[1..] == rest;
      }
    }
  }

  /** The first match in the sorted list is the best match in the original one. */
  lemma {:induction false} FirstIsBest<T>(s: seq<T>, key: T -> int, p: T -> bool)
    ensures var sorted := Sorted(s, key);
            var j := FirstIndex(sorted, p);
            if j < |sorted| then exists i: nat :: IsBest(s, p, key, i) && s[i] == sorted[j]
            else forall k :: 0 <= k < |s| ==> !p(s[k])
  {
    if s != [] {
      hide Insert, Sorted, IsBest;
      var n := |s| - 1;
      var init, x := s[..n], s[n];
      assert s == init + [x];
      FirstIsBest(init, key, p);
      SortedSorts(init, key);
      SortedNext(init, x, key);
      var sorted := Sorted(init, key);
      var j := FirstIndex(sorted, p);
      FirstOfInsert(sorted, x, key, p);
      if p(x) && (j == |sorted| || key(sorted[j]) < key(x)) {
        NewBest(init, x, key, p, if j == |sorted| then None else Some(sorted[j]));
      } else if j < |sorted| {
        var i: nat :| IsBest(init, p, key, i) && init[i] == sorted[j];
        OldBest(init, x, key, p, i);
        assert s[i] == init[i];
      } else {
        assert forall k :: 0 <= k < |s| ==> !p(if k < n then init[k] else x);
      }
    }
  }

  /** The last element is the best match if it has a greater key than the best before it. */
  lemma NewBest<T>(init: seq<T>, x: T, key: T -> int, p: T -> bool, best: Option<T>)
    requires p(x)
    requires match best
             case None => forall k :: 0 <= k < |init| ==> !p(init[k])
             case Some(b) => key(b) < key(x) && exists i: nat :: IsBest(init, p, key, i) && init[i] == b
    ensures IsBest(init + [x], p, key, |init|)
  {
    var s := init + [x];
    forall k | 0 <= k < |init| && p(s[k]) ensures key(s[k]) < key(x) {
      assert s[k] == init[k];
    }
  }

  lemma OldBest<T>(init: seq<T>, x: T, key: T -> int, p: T -> bool, i: nat)
    requires IsBest(init, p, key, i) && (p(x) ==> key(x) <= key(init[i]))
    ensures IsBest(init + [x], p, key, i)
  {
    var s := init + [x];
    assert forall k :: 0 <= k < |init| ==> s[k] == init[k];
  }

  // ----- filtering and removing

  function Filter<T>(s: seq<T>, p: T -> bool): seq<T> {
    if s == [] then [] else (if p(s[0]) then [s[0]] else []) + Filter(s[1..], p)
  }

  lemma {:induction false} FilterAll<T>(s: seq<T>, p: T -> bool)
    ensures All(Filter(s, p), p)
  {
    if s != [] {
      FilterAll(s[1..], p);
    }
  }

  /** Taking elements out of a sorted list does not raise its head. */
  lemma {:induction false} FilterHead<T>(s: seq<T>, key: T -> int, p: T -> bool)
    requires IsSorted(s, key)
    ensures Filter(s, p) == [] || key(Filter(s, p)[0]) <= key(s[0])
  {
    hide IsSorted;
    if s != [] {
      var t := s[1..];
      SortedTail(s, key);
      FilterHead(t, key, p);
      FilterFirst(s[0], t, p);
      assert s == [s[0]] + t;
    }
  }

  lemma SortedTail<T>(s: seq<T>, key: T -> int)
    requires IsSorted(s, key) && s != []
    ensures IsSorted(s[1..], key) && (|s| > 1 ==> key(s[1..][0]) <= key(s[0]))
  {
  }

  lemma FilterFirst<T>(x: T, s: seq<T>, p: T -> bool)
    ensures Filter([x] + s, p) == (if p(x) then [x] else []) + Filter(s, p)
  {
    assert ([x] + s)[1..] == s;
  }

  lemma {:induction false} FilterNext<T>(s: seq<T>, x: T, p: T -> bool)
    ensures Filter(s + [x], p) == Filter(s, p) + if p(x) then [x] else []
  {
    if s == [] {
      assert s + [x] == [x] && [x][1..] == [];
    } else {
      FilterNext(s[1..], x, p);
      assert (s + [x])[1..] == s[1..] + [x];
    }
  }

  lemma InsertFirst<T>(s: seq<T>, x: T, key: T -> int)
    requires s == [] || key(s[0]) < key(x)
    ensures Insert(s, x, key) == [x] + s
  {
  }

  lemma {:induction false} FilterInsert<T>(sorted: seq<T>, x: T, key: T -> int, p: T -> bool)
    requires IsSorted(sorted, key)
    ensures Filter(Insert(sorted, x, key), p) ==
            if p(x) then Insert(Filter(sorted, p), x, key) else Filter(sorted, p)
  {
    if sorted == [] {
      assert [x][1..] == [];
    } else if key(sorted[0]) < key(x) {
      assert ([x] + sorted)[1..] == sorted;
      FilterHead(sorted, key, p);
      InsertFirst(Filter(sorted, p), x, key);
    } else {
      FilterInsert(sorted[1..], x, key, p);
      var rest := Insert(sorted[1..], x, key);
      assert ([sorted[0]] + rest)[1..] == rest;
      var kept := Filter(sorted[1..], p);
      assert ([sorted[0]] + kept)[1..] == kept;
      assert [] + kept == kept && [] + Filter(rest, p) == Filter(rest, p);
    }
  }

  lemma {:induction false} FilterSorted<T>(s: seq<T>, key: T -> int, p: T -> bool)
    ensures Filter(Sorted(s, key), p) == Sorted(Filter(s, p), key)
  {
    hide Sorted, Insert, Filter, IsSorted;
    if s == [] {
      NothingFiltered(key, p);
    } else {
      var init, x := s[..|s| - 1], s[|s| - 1];
      assert init + [x] == s;
      FilterSorted(init, key, p);
      SortedSorts(init, key);
      SortedNext(init, x, key);
      FilterInsert(Sorted(init, key), x, key, p);
      FilterNext(init, x, p);
      assert Filter(init, p) + [] == Filter(init, p);
      SortedNext(Filter(init, p), x, key);
    }
  }

  lemma NothingFiltered<T>(key: T -> int, p: T -> bool)
    ensures Sorted<T>([], key) == [] == Filter<T>([], p)
  {
  }

  /** The first element equal to `x` goes. */
  function RemoveFirst<T(==)>(s: seq<T>, x: T): seq<T> {
    if s == [] then [] else if s[0] == x then s[1..] else [s[0]] + RemoveFirst(s[1..], x)
  }

  lemma {:induction false} RemoveNext<T>(s: seq<T>, y: T, x: T)
    ensures RemoveFirst(s + [y], x) == if x in s then RemoveFirst(s, x) + [y] else if y == x then s else s + [y]
  {
    if s == [] {
      assert s + [y] == [y] && [y][1..] == [];
    } else {
      assert (s + [y])[1..] == s[1..] + [y];
      assert s == [s[0]] + s[1..];
      RemoveNext(s[1..], y, x);
    }
  }

  lemma RemoveStep<T>(h: T, s: seq<T>, x: T)
    ensures RemoveFirst([h] + s, x) == if h == x then s else [h] + RemoveFirst(s, x)
  {
    assert ([h] + s)[1..] == s;
  }

  lemma InsertLater<T>(h: T, t: seq<T>, y: T, key: T -> int)
    requires key(h) >= key(y)
    ensures Insert([h] + t, y, key) == [h] + Insert(t, y, key)
  {
    assert ([h] + t)[1..] == t;
  }

  lemma {:induction false} RemoveInsertPresent<T>(sorted: seq<T>, y: T, key: T -> int, x: T)
    requires IsSorted(sorted, key) && x in sorted
    ensures RemoveFirst(Insert(sorted, y, key), x) == Insert(RemoveFirst(sorted, x), y, key)
  {
    hide Insert, RemoveFirst;
    var h, t := sorted[0], sorted[1..];
    assert sorted == [h] + t;
    RemoveStep(h, t, x);
    if key(h) < key(y) {
      var k :| 0 <= k < |sorted| && sorted[k] == x;
      assert key(x) <= key(h);
      InsertFirst(sorted, y, key);
      RemoveStep(y, sorted, x);
      InsertFirst(RemoveFirst(sorted, x), y, key);
    } else {
      InsertLater(h, t, y, key);
      RemoveStep(h, Insert(t, y, key), x);
      if h != x {
        assert x in t;
        RemoveInsertPresent(t, y, key, x);
        InsertLater(h, RemoveFirst(t, x), y, key);
      }
    }
  }

  lemma {:induction false} RemoveInsertAbsent<T>(sorted: seq<T>, y: T, key: T -> int, x: T)
    requires x !in sorted
    ensures RemoveFirst(Insert(sorted, y, key), x) == if x == y then sorted else Insert(sorted, y, key)
  {
    if sorted == [] {
      RemoveStep(y, [], x);
      assert [y] + [] == [y];
    } else {
      var h, t := sorted[0], sorted[1..];
      assert sorted == [h] + t && h in sorted;
      if key(h) < key(y) {
        RemoveStep(y, sorted, x);
        RemoveAbsent(sorted, x);
      } else {
        RemoveStep(h, Insert(t, y, key), x);
        RemoveInsertAbsent(t, y, key, x);
      }
    }
  }

  lemma InSorted<T>(s: seq<T>, key: T -> int, x: T)
    ensures x in Sorted(s, key) <==> x in s
  {
    var other: T -> bool := y => y != x;
    AllSorted(s, key, other);
    NotAll(s, x, other);
    NotAll(Sorted(s, key), x, other);
  }

  lemma NotAll<T>(s: seq<T>, x: T, other: T -> bool)
    requires forall k :: 0 <= k < |s| ==> other(s[k]) == (s[k] != x)
    ensures x in s <==> !All(s, other)
  {
  }

  lemma {:induction false} RemoveAbsent<T>(s: seq<T>, x: T)
    requires x !in s
    ensures RemoveFirst(s, x) == s
  {
    if s != [] {
      assert s[0] in s;
      RemoveAbsent(s[1..], x);
    }
  }

  lemma NothingSorted<T>(key: T -> int, x: T)
    ensures Sorted<T>([], key) == [] == RemoveFirst<T>([], x)
  {
  }

  /** One element more, sorted in and removed from. */
  lemma RemoveStays<T>(init: seq<T>, y: T, key: T -> int, x: T)
    requires RemoveFirst(Sorted(init, key), x) == Sorted(RemoveFirst(init, x), key)
    requires IsSorted(Sorted(init, key), key) && (x in Sorted(init, key) <==> x in init)
    ensures RemoveFirst(Insert(Sorted(init, key), y, key), x) ==
            Sorted(if x in init then RemoveFirst(init, x) + [y] else if y == x then init else init + [y], key)
  {
    hide Sorted, Insert, RemoveFirst, IsSorted;
    if x in init {
      RemoveInsertPresent(Sorted(init, key), y, key, x);
      SortedNext(RemoveFirst(init, x), y, key);
    } else {
      RemoveInsertAbsent(Sorted(init, key), y, key, x);
      SortedNext(init, y, key);
    }
  }

  /** Removing from the sorted list is removing the earliest equal element. */
  lemma {:induction false} RemoveSorted<T>(s: seq<T>, key: T -> int, x: T)
    ensures RemoveFirst(Sorted(s, key), x) == Sorted(RemoveFirst(s, x), key)
  {
    hide Sorted, Insert, RemoveFirst, IsSorted;
    if s == [] {
      NothingSorted(key, x);
    } else {
      var init, y := s[..|s| - 1], s[|s| - 1];
      RemoveSorted(init, key, x);
      SortedSorts(init, key);
      InSorted(init, key, x);
      RemoveNext(init, y, x);
      SortedNext(init, y, key);
      assert init + [y] == s;
      RemoveStays(init, y, key, x);
    }
  }
}
