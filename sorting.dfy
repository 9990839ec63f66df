/**
  The two collection idioms the source uses on copies of arrays:
  `array.filter(pred)` and a stable `[...array].sort(cmp)` whose comparator
  orders by a pair of numbers (a major key, then a minor key).
*/
module Sorting {

  /** A sort key compared lexicographically: `major` first, then `minor`. */
  datatype Key = Key(major: int, minor: int)

  predicate KeyLe(a: Key, b: Key) {
    a.major < b.major || (a.major == b.major && a.minor <= b.minor)
  }

  ghost predicate SortedBy<T>(s: seq<T>, key: T -> Key) {
    forall i, j :: 0 <= i < j < |s| ==> KeyLe(key(s[i]), key(s[j]))
  }

  /** Inserts `x` in front of the first element it does not follow. */
  function Insert<T>(x: T, s: seq<T>, key: T -> Key): (r: seq<T>)
    requires SortedBy(s, key)
    ensures SortedBy(r, key)
    ensures multiset(r) == multiset(s) + multiset{x}
    ensures |r| == |s| + 1
  {
    if s == [] || KeyLe(key(x), key(s[0])) then
      [x] + s
    else
      var t := Insert(x, s[1..], key);
      assert s == [s[0]] + s[1..];
      HeadBelowInserted(s, x, t, key);
      [s[0]] + t
  }

  /** Inserting an element that does not go first keeps the head of a
      sorted sequence in front of everything. */
  lemma HeadBelowInserted<T>(s: seq<T>, x: T, t: seq<T>, key: T -> Key)
    requires s != [] && SortedBy(s, key) && !KeyLe(key(x), key(s[0]))
    requires SortedBy(t, key) && multiset(t) == multiset(s[1..]) + multiset{x}
    ensures SortedBy([s[0]] + t, key)
  {
    forall k | 0 <= k < |t| ensures KeyLe(key(s[0]), key(t[k])) {
      assert t[k] in multiset(t);
      if t[k] != x {
        assert t[k] in multiset(s[1..]);
        var j :| 0 <= j < |s[1..]| && s[1..][j] == t[k];
        assert s[j + 1] == t[k];
      }
    }
    var r := [s[0]] + t;
    forall i, j | 0 <= i < j < |r| ensures KeyLe(key(r[i]), key(r[j])) {
      if i == 0 {
        assert r[j] == t[j - 1];
      } else {
        assert r[i] == t[i - 1] && r[j] == t[j - 1];
      }
    }
  }

  /** `[...s].sort(cmp)`: a sorted permutation of `s` (insertion sort, which
      like JavaScript's sort keeps equal elements in their original order). */
  function SortBy<T>(s: seq<T>, key: T -> Key): (r: seq<T>)
    ensures SortedBy(r, key)
    ensures multiset(r) == multiset(s)
    ensures |r| == |s|
  {
    if s == [] then []
    else
      assert s == [s[0]] + s[1..];
      Insert(s[0], SortBy(s[1..], key), key)
  }

  /** The head of a sorted, non-empty sequence has the least key. */
  lemma SortedHeadIsLeast<T>(s: seq<T>, key: T -> Key, x: T)
    requires SortedBy(s, key) && x in s
    ensures KeyLe(key(s[0]), key(x))
  {
    var i :| 0 <= i < |s| && s[i] == x;
    if i > 0 {
      assert KeyLe(key(s[0]), key(s[i]));
    } else {
      assert s[0] == x;
    }
  }

  /** `s.filter(keep)`: the elements that pass, in their original order. */
  function Filter<T>(s: seq<T>, keep: T -> bool): (r: seq<T>)
    ensures |r| <= |s|
    ensures forall i :: 0 <= i < |r| ==> keep(r[i])
    ensures multiset(r) <= multiset(s)
    ensures forall i :: 0 <= i < |s| && keep(s[i]) ==> s[i] in r
  {
    if s == [] then []
    else
      assert s == [s[0]] + s[1..];
      if keep(s[0]) then [s[0]] + Filter(s[1..], keep)
      else Filter(s[1..], keep)
  }

  /** Filtering distributes over concatenation, so it preserves order. */
  lemma {:induction false} FilterAppend<T>(a: seq<T>, b: seq<T>, keep: T -> bool)
    ensures Filter(a + b, keep) == Filter(a, keep) + Filter(b, keep)
  {
    if a == [] {
      assert a + b == b;
    } else {
      assert (a + b)[0] == a[0];
      assert (a + b)[1..] == a[1..] + b;
      FilterAppend(a[1..], b, keep);
    }
  }

  /** A filter keeps every copy of an element that passes and no copy of
      one that does not. */
  lemma {:induction false} FilterCounts<T>(s: seq<T>, keep: T -> bool, x: T)
    ensures multiset(Filter(s, keep))[x] == if keep(x) then multiset(s)[x] else 0
  {
    if s != [] {
      assert s == [s[0]] + s[1..];
      FilterCounts(s[1..], keep, x);
    }
  }

  /** A filter keeps everything exactly when every element passes. */
  lemma {:induction false} FilterAll<T>(s: seq<T>, keep: T -> bool)
    requires forall i :: 0 <= i < |s| ==> keep(s[i])
    ensures Filter(s, keep) == s
  {
    if s != [] {
      FilterAll(s[1..], keep);
    }
  }

  /** What a filter keeps and what the opposite filter keeps add up to the whole. */
  lemma {:induction false} FilterComplement<T>(s: seq<T>, keep: T -> bool, drop: T -> bool)
    requires forall x :: drop(x) == !keep(x)
    ensures |Filter(s, keep)| + |Filter(s, drop)| == |s|
  {
    if s != [] {
      FilterComplement(s[1..], keep, drop);
    }
  }

  /** `s[k]` is kept, and every kept element before it has a strictly
      greater key: it is the first kept element with the least key. */
  ghost predicate FirstLeastAt<T>(s: seq<T>, keep: T -> bool, key: T -> Key, k: int) {
    0 <= k < |s| && keep(s[k]) &&
    forall j :: 0 <= j < k && keep(s[j]) ==> !KeyLe(key(s[j]), key(s[k]))
  }

  /** The head after an insertion: `x` when it does not follow the old head. */
  lemma InsertHead<T>(x: T, s: seq<T>, key: T -> Key)
    requires SortedBy(s, key)
    ensures Insert(x, s, key)[0] == if s == [] || KeyLe(key(x), key(s[0])) then x else s[0]
  {
  }

  /** Shifting past a first element that is dropped, or whose key is greater. */
  lemma FirstLeastShift<T>(s: seq<T>, keep: T -> bool, key: T -> Key, k: int)
    requires s != [] && FirstLeastAt(s[1..], keep, key, k)
    requires keep(s[0]) ==> !KeyLe(key(s[0]), key(s[k + 1]))
    ensures FirstLeastAt(s, keep, key, k + 1)
  {
    assert s[k + 1] == s[1..][k];
    forall j | 0 < j < k + 1 && keep(s[j]) ensures !KeyLe(key(s[j]), key(s[k + 1])) {
      assert s[j] == s[1..][j - 1];
    }
  }

  /** The head of a sorted filter is the first kept element of `s` with the
      least key (the sort is stable). */
  lemma {:induction false} SortedFilterHeadIsFirst<T>(s: seq<T>, keep: T -> bool, key: T -> Key)
    requires Filter(s, keep) != []
    ensures exists k :: FirstLeastAt(s, keep, key, k) && SortBy(Filter(s, keep), key)[0] == s[k]
  {
    var rest := Filter(s[1..], keep);
    var sortedRest := SortBy(rest, key);
    if !keep(s[0]) {
      assert Filter(s, keep) == rest;
      SortedFilterHeadIsFirst(s[1..], keep, key);
      var k :| FirstLeastAt(s[1..], keep, key, k) && sortedRest[0] == s[1..][k];
      FirstLeastShift(s, keep, key, k);
      assert sortedRest[0] == s[k + 1];
    } else {
      var f := [s[0]] + rest;
      assert Filter(s, keep) == f;
      assert f[0] == s[0] && f[1..] == rest;
      assert SortBy(f, key) == Insert(s[0], sortedRest, key);
      InsertHead(s[0], sortedRest, key);
      if sortedRest == [] || KeyLe(key(s[0]), key(sortedRest[0])) {
        assert FirstLeastAt(s, keep, key, 0);
      } else {
        SortedFilterHeadIsFirst(s[1..], keep, key);
        var k :| FirstLeastAt(s[1..], keep, key, k) && sortedRest[0] == s[1..][k];
        assert sortedRest[0] == s[k + 1];
        FirstLeastShift(s, keep, key, k);
      }
    }
  }
}
