/** Python dictionaries as insertion-ordered association lists: assigning to
    a new key appends the pair, assigning to a present key replaces its value
    where it stands, and iteration follows insertion order. */
module Dicts {
  import opened Domain

  predicate HasKey<K(==), V>(d: seq<(K, V)>, k: K)
  {
    exists i :: 0 <= i < |d| && d[i].0 == k
  }

  predicate DistinctKeys<K(==), V>(d: seq<(K, V)>)
  {
    forall i, j :: 0 <= i < j < |d| ==> d[i].0 != d[j].0
  }

  /** `d.get(k)`: the value of the first pair with key `k`. */
  function Get<K(==), V>(d: seq<(K, V)>, k: K): (r: Option<V>)
    ensures r.None? <==> !HasKey(d, k)
    ensures r.Some? ==> exists i :: 0 <= i < |d| && d[i] == (k, r.value) && forall j :: 0 <= j < i ==> d[j].0 != k
  {
    if d == [] then None
    else if d[0].0 == k then Some(d[0].1)
    else
      var r := Get(d[1..], k);
      assert forall i :: 1 <= i < |d| ==> d[i] == d[1..][i - 1];
      assert r.Some? ==> exists i :: 0 <= i < |d| && d[i] == (k, r.value) && forall j :: 0 <= j < i ==> d[j].0 != k by {
        if r.Some? {
          var i :| 0 <= i < |d[1..]| && d[1..][i] == (k, r.value) && forall j :: 0 <= j < i ==> d[1..][j].0 != k;
          assert d[i + 1] == (k, r.value);
          assert forall j :: 0 <= j < i + 1 ==> d[j].0 != k by {
            forall j | 0 <= j < i + 1 ensures d[j].0 != k {
              if j > 0 { assert d[j] == d[1..][j - 1]; }
            }
          }
        }
      }
      assert HasKey(d[1..], k) ==> HasKey(d, k) by {
        if HasKey(d[1..], k) {
          var i :| 0 <= i < |d[1..]| && d[1..][i].0 == k;
          assert d[i + 1].0 == k;
        }
      }
      r
  }

  /** With distinct keys, a key's value is the one stored beside it. */
  lemma GetAt<K, V>(d: seq<(K, V)>, i: nat)
    requires DistinctKeys(d) && i < |d|
    ensures Get(d, d[i].0) == Some(d[i].1)
  {
    var r := Get(d, d[i].0);
    var j :| 0 <= j < |d| && d[j] == (d[i].0, r.value);
  }

  /** `d[k] = v`. */
  function Set<K(==), V>(d: seq<(K, V)>, k: K, v: V): (r: seq<(K, V)>)
    ensures HasKey(d, k) ==> |r| == |d|
    ensures !HasKey(d, k) ==> |r| == |d| + 1 && r[|d|] == (k, v)
    ensures forall i :: 0 <= i < |d| ==> r[i] == if d[i].0 == k then (k, v) else d[i]
  {
    if HasKey(d, k) then seq(|d|, i requires 0 <= i < |d| => if d[i].0 == k then (k, v) else d[i])
    else d + [(k, v)]
  }

  /** Assignment keeps the keys distinct, gives `k` the value `v` and leaves
      every other key's value alone. */
  lemma SetGet<K, V>(d: seq<(K, V)>, k: K, v: V, k': K)
    requires DistinctKeys(d)
    ensures DistinctKeys(Set(d, k, v))
    ensures Get(Set(d, k, v), k') == if k' == k then Some(v) else Get(d, k')
  {
    var r := Set(d, k, v);
    assert forall i :: 0 <= i < |d| ==> r[i].0 == d[i].0;
    assert DistinctKeys(r);
    if k' == k {
      var i :| 0 <= i < |r| && r[i].0 == k;
      GetAt(r, i);
    } else if HasKey(d, k') {
      var i :| 0 <= i < |d| && d[i].0 == k';
      GetAt(d, i);
      GetAt(r, i);
    } else {
      assert !HasKey(r, k');
    }
  }
}
