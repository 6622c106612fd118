/** Python's `list.sort(key=...)` on the scheduler's batch lists: a stable sort
    by a key. Keys are pairs compared lexicographically, which covers the
    tuple key `(-priority, due_date)` as well as single-number keys. */
module Sorting {

  datatype Key = Key(major: real, minor: real)

  /** Lexicographic `<=` on keys: a total preorder. */
  predicate KeyLe(a: Key, b: Key)
  {
    a.major < b.major || (a.major == b.major && a.minor <= b.minor)
  }

  predicate SortedBy<T>(s: seq<T>, key: T -> Key)
  {
    forall i, j :: 0 <= i < j < |s| ==> KeyLe(key(s[i]), key(s[j]))
  }

  /** Insert `x` in front of the first element whose key is not smaller. */
  function Insert<T>(x: T, s: seq<T>, key: T -> Key): (r: seq<T>)
    ensures multiset(r) == multiset(s) + multiset{x}
    ensures |r| == |s| + 1
  {
    if s == [] || KeyLe(key(x), key(s[0])) then [x] + s
    else
      assert s == [s[0]] + s[1..];
      [s[0]] + Insert(x, s[1..], key)
  }

  lemma {:induction false} InsertSorted<T>(x: T, s: seq<T>, key: T -> Key)
    requires SortedBy(s, key)
    ensures SortedBy(Insert(x, s, key), key)
    decreases |s|
  {
    if s == [] || KeyLe(key(x), key(s[0])) {
      forall j | 0 <= j < |s| ensures KeyLe(key(x), key(s[j])) {
        if j > 0 { assert KeyLe(key(s[0]), key(s[j])); }
      }
      PrependSorted(x, s, key);
    } else {
      assert SortedBy(s[1..], key);
      InsertSorted(x, s[1..], key);
      HeadBelowInsert(x, s, key);
      PrependSorted(s[0], Insert(x, s[1..], key), key);
    }
  }

  /** A key no larger than every key of a sorted list can go in front. */
  lemma PrependSorted<T>(y: T, t: seq<T>, key: T -> Key)
    requires SortedBy(t, key) && forall j :: 0 <= j < |t| ==> KeyLe(key(y), key(t[j]))
    ensures SortedBy([y] + t, key)
  {
    var r := [y] + t;
    forall i, j | 0 <= i < j < |r| ensures KeyLe(key(r[i]), key(r[j])) {
      if i == 0 { assert r[j] == t[j - 1]; } else { assert r[i] == t[i - 1] && r[j] == t[j - 1]; }
    }
  }

  /** When `x` goes past the head of a sorted list, the head's key is no
      larger than any key of the rest with `x` inserted. */
  lemma HeadBelowInsert<T>(x: T, s: seq<T>, key: T -> Key)
    requires SortedBy(s, key) && s != [] && !KeyLe(key(x), key(s[0]))
    ensures forall j :: 0 <= j < |Insert(x, s[1..], key)| ==> KeyLe(key(s[0]), key(Insert(x, s[1..], key)[j]))
  {
    var rest := Insert(x, s[1..], key);
    forall j | 0 <= j < |rest| ensures KeyLe(key(s[0]), key(rest[j])) {
      var y := rest[j];
      assert y in multiset(rest);
      if y != x {
        assert y in multiset(s[1..]);
        var l :| 0 <= l < |s[1..]| && s[1..][l] == y;
        assert s[l + 1] == y;
      }
    }
  }

  /** Insertion sort: sorted, and a permutation of its input. */
  function SortBy<T>(s: seq<T>, key: T -> Key): (r: seq<T>)
    ensures multiset(r) == multiset(s)
    ensures |r| == |s|
    ensures SortedBy(r, key)
  {
    if s == [] then []
    else
      assert s == [s[0]] + s[1..];
      InsertSorted(s[0], SortBy(s[1..], key), key);
      Insert(s[0], SortBy(s[1..], key), key)
  }

  /** The elements of `s` whose key is `k`, in their order in `s`. */
  function FilterKey<T>(s: seq<T>, key: T -> Key, k: Key): seq<T>
  {
    if s == [] then []
    else (if key(s[0]) == k then [s[0]] else []) + FilterKey(s[1..], key, k)
  }

  lemma {:induction false} InsertFilter<T>(x: T, s: seq<T>, key: T -> Key, k: Key)
    ensures FilterKey(Insert(x, s, key), key, k) == FilterKey([x] + s, key, k)
    decreases |s|
  {
    var r := Insert(x, s, key);
    if s == [] || KeyLe(key(x), key(s[0])) {
    } else {
      InsertFilter(x, s[1..], key, k);
      assert r == [s[0]] + Insert(x, s[1..], key);
      assert r[1..] == Insert(x, s[1..], key);
      assert ([x] + s)[1..] == s;
      assert ([x] + s[1..])[1..] == s[1..];
      assert s[1..] == s[1..];
      if key(x) == k {
        // x passes only over elements with a strictly smaller key, none of which has key k
        assert key(s[0]) != k;
      }
    }
  }

  /** Stability: for every key, the elements carrying that key appear in the
      sorted list in the same order as in the input. */
  lemma {:induction false} SortByStable<T>(s: seq<T>, key: T -> Key, k: Key)
    ensures FilterKey(SortBy(s, key), key, k) == FilterKey(s, key, k)
  {
    if s != [] {
      SortByStable(s[1..], key, k);
      InsertFilter(s[0], SortBy(s[1..], key), key, k);
      assert ([s[0]] + SortBy(s[1..], key))[1..] == SortBy(s[1..], key);
    }
  }

  /** Filtering commutes with a map that carries each element's key over to
      its image. */
  lemma {:induction false} MapFilter<T, U>(s: seq<T>, f: T -> U, key: T -> Key, key2: U -> Key, k: Key)
    requires forall i :: 0 <= i < |s| ==> key(s[i]) == key2(f(s[i]))
    ensures Map(FilterKey(s, key, k), f) == FilterKey(Map(s, f), key2, k)
  {
    if s != [] {
      var head := if key(s[0]) == k then [s[0]] else [];
      MapFilter(s[1..], f, key, key2, k);
      MapAppend(head, FilterKey(s[1..], key, k), f);
      assert Map(s, f)[1..] == Map(s[1..], f);
      assert Map(head, f) == if key2(Map(s, f)[0]) == k then [Map(s, f)[0]] else [];
    }
  }

  /** The sort applies the same permutation whatever is attached to the
      elements: mapping a function over the sorted list gives the same
      multiset as mapping it over the input. */
  lemma {:induction false} MapPreservesMultiset<T, U>(s: seq<T>, r: seq<T>, f: T -> U)
    requires multiset(s) == multiset(r)
    ensures multiset(Map(s, f)) == multiset(Map(r, f))
    decreases |s|
  {
    if s != [] {
      var x := s[0];
      assert x in multiset(r);
      var l :| 0 <= l < |r| && r[l] == x;
      var r' := r[..l] + r[l + 1..];
      RemoveAt(r, l, f);
      RemoveHead(s, f);
      MapPreservesMultiset(s[1..], r', f);
    }
  }

  /** Taking out the element at `l` takes it out of the multiset, and its
      image out of the mapped multiset. */
  lemma RemoveAt<T, U>(r: seq<T>, l: nat, f: T -> U)
    requires l < |r|
    ensures multiset(r[..l] + r[l + 1..]) == multiset(r) - multiset{r[l]}
    ensures multiset(Map(r, f)) == multiset(Map(r[..l] + r[l + 1..], f)) + multiset{f(r[l])}
  {
    var x, a, b := r[l], r[..l], r[l + 1..];
    SplitAt(r, l);
    MultisetSplit(a, x, b);
    MapAppend(a + [x], b, f);
    MapAppend(a, [x], f);
    MapAppend(a, b, f);
    assert Map([x], f) == [f(x)];
    MultisetSplit(Map(a, f), f(x), Map(b, f));
  }

  /** `RemoveAt` at the head. */
  lemma RemoveHead<T, U>(s: seq<T>, f: T -> U)
    requires s != []
    ensures multiset(s[1..]) == multiset(s) - multiset{s[0]}
    ensures multiset(Map(s, f)) == multiset(Map(s[1..], f)) + multiset{f(s[0])}
  {
    assert s == [s[0]] + s[1..];
  }

  lemma SplitAt<T>(r: seq<T>, l: nat)
    requires l < |r|
    ensures r == r[..l] + [r[l]] + r[l + 1..]
  {
  }

  /** A prefix takes no element more often than the whole sequence holds it. */
  lemma PrefixSubMultiset<T>(s: seq<T>, n: nat)
    requires n <= |s|
    ensures multiset(s[..n]) <= multiset(s)
  {
    assert s == s[..n] + s[n..];
  }

  lemma MultisetSplit<T>(a: seq<T>, x: T, b: seq<T>)
    ensures multiset(a + [x] + b) == multiset(a + b) + multiset{x}
  {
  }

  function Map<T, U>(s: seq<T>, f: T -> U): (r: seq<U>)
    ensures |r| == |s|
    ensures forall i :: 0 <= i < |s| ==> r[i] == f(s[i])
  {
    if s == [] then [] else [f(s[0])] + Map(s[1..], f)
  }

  lemma MapAppend<T, U>(a: seq<T>, b: seq<T>, f: T -> U)
    ensures Map(a + b, f) == Map(a, f) + Map(b, f)
  {
    assert |Map(a + b, f)| == |Map(a, f) + Map(b, f)|;
    forall i | 0 <= i < |a + b| ensures Map(a + b, f)[i] == (Map(a, f) + Map(b, f))[i] {
      if i < |a| { assert (a + b)[i] == a[i]; } else { assert (a + b)[i] == b[i - |a|]; }
    }
  }
}
