/** Listing a finite map from integers in the order of its keys. */
module Sorting {
  lemma Pick<T>(s: set<T>) returns (x: T)
    requires s != {}
    ensures x in s
  {
    x :| x in s;
  }

  lemma {:induction false} LeastKey(keys: set<int>)
    requires keys != {}
    ensures exists k :: k in keys && forall l :: l in keys ==> k <= l
    decreases |keys|
  {
    var k := Pick(keys);
    var others := keys - {k};
    var least := k;
    if others != {} {
      LeastKey(others);
      var m :| m in others && forall l :: l in others ==> m <= l;
      least := if k < m then k else m;
    }
    forall l | l in keys ensures least <= l {
      assert l == k || l in others;
    }
    assert least in keys;
  }

  ghost predicate Increasing(ks: seq<int>) {
    forall i, j :: 0 <= i < j < |ks| ==> ks[i] < ks[j]
  }

  function SortedKeys(keys: set<int>): (ks: seq<int>)
    ensures Increasing(ks) && |ks| == |keys|
    ensures forall k :: k in keys ==> k in ks
    ensures forall i :: 0 <= i < |ks| ==> ks[i] in keys
  {
    if keys == {} then [] else
      LeastKey(keys);
      var k :| k in keys && forall l :: l in keys ==> k <= l;
      var rest := SortedKeys(keys - {k});
      LeastFirst(keys, k, rest);
      [k] + rest
  }

  lemma LeastFirst(keys: set<int>, k: int, rest: seq<int>)
    requires k in keys && forall l :: l in keys ==> k <= l
    requires Increasing(rest) && |rest| == |keys - {k}|
    requires forall l :: l in keys - {k} ==> l in rest
    requires forall i :: 0 <= i < |rest| ==> rest[i] in keys - {k}
    ensures Increasing([k] + rest) && |[k] + rest| == |keys|
    ensures forall l :: l in keys ==> l in [k] + rest
    ensures forall i :: 0 <= i < |[k] + rest| ==> ([k] + rest)[i] in keys
  {
  }

  function Listed<V>(m: map<int, V>, ks: seq<int>): (vs: seq<V>)
    requires forall i :: 0 <= i < |ks| ==> ks[i] in m
    ensures |vs| == |ks| && forall i :: 0 <= i < |vs| ==> ks[i] in m && vs[i] == m[ks[i]]
  {
    if ks == [] then [] else [m[ks[0]]] + Listed(m, ks[1..])
  }

  function SortedValues<V>(m: map<int, V>): (vs: seq<V>)
    ensures vs == Listed(m, SortedKeys(m.Keys)) && |vs| == |m|
    ensures forall k :: k in m ==> m[k] in vs
  {
    EachValueListed(m, SortedKeys(m.Keys), Listed(m, SortedKeys(m.Keys)));
    Listed(m, SortedKeys(m.Keys))
  }

  lemma ValueAt<V>(m: map<int, V>, i: int)
    requires 0 <= i < |m|
    ensures |SortedKeys(m.Keys)| == |SortedValues(m)| == |m|
    ensures var k := SortedKeys(m.Keys)[i]; k in m && SortedValues(m)[i] == m[k]
  {
  }

  lemma EachValueListed<V>(m: map<int, V>, ks: seq<int>, vs: seq<V>)
    requires |ks| == |vs| && forall k :: k in m ==> k in ks
    requires forall i :: 0 <= i < |ks| ==> ks[i] in m && vs[i] == m[ks[i]]
    ensures forall k :: k in m ==> m[k] in vs
  {
  }

  /** An increasing list is determined by its elements. */
  lemma {:induction false} IncreasingUnique(a: seq<int>, b: seq<int>)
    requires Increasing(a) && Increasing(b)
    requires forall i :: 0 <= i < |a| ==> a[i] in b
    requires forall i :: 0 <= i < |b| ==> b[i] in a
    ensures a == b
    decreases |a|
  {
    NotEmpty(a, b);
    NotEmpty(b, a);
    if a != [] {
      assert a[0] in b && b[0] in a;
      assert a[0] == b[0];
      TailWithin(a, b);
      TailWithin(b, a);
      IncreasingUnique(a[1..], b[1..]);
    }
  }

  lemma NotEmpty(a: seq<int>, b: seq<int>)
    requires forall i :: 0 <= i < |a| ==> a[i] in b
    ensures a != [] ==> b != []
  {
    if a != [] { assert a[0] in b; }
  }

  lemma TailWithin(a: seq<int>, b: seq<int>)
    requires a != [] && b != [] && a[0] == b[0] && Increasing(a) && Increasing(b)
    requires forall i :: 0 <= i < |a| ==> a[i] in b
    ensures forall i :: 0 <= i < |a[1..]| ==> a[1..][i] in b[1..]
  {
  }
}
