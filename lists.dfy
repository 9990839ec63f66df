/**
  The list edits the step editors apply to copies of their arrays:
  `list.filter(x => x !== v)`, the include-or-exclude toggle built on it,
  and `list.filter((_, i) => i !== index)`.
*/
module Lists {

  /** `s.filter(x => x !== v)`: every occurrence of `v` removed, the rest
      kept in order. */
  function RemoveAll<T(==,!new)>(s: seq<T>, v: T): (r: seq<T>)
    ensures v !in r
    ensures forall x :: x != v ==> multiset(r)[x] == multiset(s)[x]
    ensures |r| <= |s|
  {
    if s == [] then []
    else
      assert s == [s[0]] + s[1..];
      (if s[0] == v then [] else [s[0]]) + RemoveAll(s[1..], v)
  }

  /** Removing a value that is absent changes nothing. */
  lemma {:induction false} RemoveAllAbsent<T(!new)>(s: seq<T>, v: T)
    requires v !in s
    ensures RemoveAll(s, v) == s
  {
    if s != [] {
      RemoveAllAbsent(s[1..], v);
    }
  }

  lemma {:induction false} RemoveAllAppend<T(!new)>(a: seq<T>, b: seq<T>, v: T)
    ensures RemoveAll(a + b, v) == RemoveAll(a, v) + RemoveAll(b, v)
  {
    if a == [] {
      assert a + b == b;
    } else {
      assert (a + b)[0] == a[0];
      assert (a + b)[1..] == a[1..] + b;
      RemoveAllAppend(a[1..], b, v);
    }
  }

  /** Include-or-exclude: a present value is removed everywhere, an absent
      one is appended at the end. */
  function Toggle<T(==,!new)>(s: seq<T>, v: T): (r: seq<T>)
    ensures v in s ==> v !in r && forall x :: x != v ==> multiset(r)[x] == multiset(s)[x]
    ensures v !in s ==> r == s + [v]
  {
    if v in s then RemoveAll(s, v) else s + [v]
  }

  /** Toggling an absent value twice gives the list back exactly. */
  lemma ToggleTwice<T(!new)>(s: seq<T>, v: T)
    requires v !in s
    ensures Toggle(Toggle(s, v), v) == s
  {
    RemoveAllAppend(s, [v], v);
    RemoveAllAbsent(s, v);
    assert RemoveAll([v], v) == [];
  }

  /** `s.filter((_, i) => i !== index)`, with `k` the index relative to
      the head of `s`. */
  function DropIndex<T>(s: seq<T>, k: int): (r: seq<T>)
    ensures 0 <= k < |s| ==> r == s[..k] + s[k + 1..]
    ensures !(0 <= k < |s|) ==> r == s
  {
    if s == [] then []
    else
      var rest := DropIndex(s[1..], k - 1);
      if k == 0 then rest
      else
        assert 0 < k < |s| ==> s[..k] == [s[0]] + s[1..][..k - 1] && s[k + 1..] == s[1..][k..];
        assert !(0 <= k < |s|) ==> s == [s[0]] + s[1..];
        [s[0]] + rest
  }

  /** Removes the element at `index`; any other index changes nothing. */
  function RemoveAt<T>(s: seq<T>, index: int): (r: seq<T>)
    ensures 0 <= index < |s| ==>
      (|r| == |s| - 1
       && (forall j :: 0 <= j < index ==> r[j] == s[j])
       && (forall j :: index <= j < |r| ==> r[j] == s[j + 1]))
    ensures !(0 <= index < |s|) ==> r == s
  {
    DropIndex(s, index)
  }
}
