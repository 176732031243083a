/** Python's `sorted(..., key=k, reverse=True)` on positions: a stable
    descending order of indices by a real-valued key. Every sort in the core
    (ranking scores, review scores, paper priorities, ranks) is an instance. */
module Sorting {

  /** Index `a` comes before index `b`: a larger key, or an equal key and an
      earlier position (the sort is stable). */
  predicate Before(keys: seq<real>, a: nat, b: nat)
    requires a < |keys| && b < |keys|
  {
    keys[a] > keys[b] || (keys[a] == keys[b] && a < b)
  }

  /** `o` lists indices of `keys` in stable descending order. */
  predicate Ordered(keys: seq<real>, o: seq<nat>) {
    (forall k :: 0 <= k < |o| ==> o[k] < |keys|)
    && forall p, q :: 0 <= p < q < |o| ==> Before(keys, o[p], o[q])
  }

  /** Places index `i`, larger than every index already in `o`, after all
      entries whose key is at least its own. */
  function Insert(keys: seq<real>, o: seq<nat>, i: nat): (r: seq<nat>)
    requires Ordered(keys, o) && i < |keys|
    requires forall k :: 0 <= k < |o| ==> o[k] < i
    ensures |r| == |o| + 1
    ensures forall x :: x in r <==> x in o || x == i
    ensures Ordered(keys, r)
  {
    if |o| == 0 then [i]
    else if keys[o[0]] < keys[i] then
      assert forall q :: 0 < q < |o| ==> Before(keys, o[0], o[q]);
      [i] + o
    else
      var rest := Insert(keys, o[1..], i);
      assert forall k :: 0 <= k < |rest| ==> rest[k] in o[1..] || rest[k] == i;
      [o[0]] + rest
  }

  /** The stable descending order of the first `n` indices. */
  function OrderPrefix(keys: seq<real>, n: nat): (o: seq<nat>)
    requires n <= |keys|
    ensures |o| == n
    ensures forall x: nat :: x in o <==> x < n
    ensures Ordered(keys, o)
  {
    if n == 0 then []
    else
      var o := OrderPrefix(keys, n - 1);
      assert forall k :: 0 <= k < |o| ==> o[k] in o;
      Insert(keys, o, n - 1)
  }

  /** `sorted(range(len(keys)), key=keys.__getitem__, reverse=True)`:
      every index exactly once, larger keys first, ties by position. */
  function OrderDesc(keys: seq<real>): (o: seq<nat>)
    ensures |o| == |keys|
    ensures forall x: nat :: x in o <==> x < |keys|
    ensures Ordered(keys, o)
  {
    OrderPrefix(keys, |keys|)
  }

  /** An ordered list never repeats an index. */
  lemma OrderedDistinct(keys: seq<real>, o: seq<nat>)
    requires Ordered(keys, o)
    ensures forall p, q :: 0 <= p < q < |o| ==> o[p] != o[q]
  {
  }

  /** Python's `max(range(n), key=...)`: the head of the descending order
      is a maximal key, and no earlier index reaches that key. */
  lemma {:induction false} OrderDescHead(keys: seq<real>)
    requires |keys| > 0
    ensures OrderDesc(keys)[0] < |keys|
    ensures forall j :: 0 <= j < |keys| ==> keys[j] <= keys[OrderDesc(keys)[0]]
    ensures forall j :: 0 <= j < OrderDesc(keys)[0] ==> keys[j] < keys[OrderDesc(keys)[0]]
  {
    var o := OrderDesc(keys);
    forall j | 0 <= j < |keys|
      ensures keys[j] <= keys[o[0]] && (j < o[0] ==> keys[j] < keys[o[0]])
    {
      assert j in o;
      var p :| 0 <= p < |o| && o[p] == j;
      if p > 0 {
        assert Before(keys, o[0], o[p]);
      }
    }
  }

  /** Two stable descending orders of the same indices coincide: the order is
      determined by the keys alone. */
  lemma {:induction false} OrderedUnique(keys: seq<real>, o1: seq<nat>, o2: seq<nat>)
    requires Ordered(keys, o1) && Ordered(keys, o2)
    requires forall x :: x in o1 <==> x in o2
    ensures o1 == o2
    decreases |o1| + |o2|
  {
    assert |o1| > 0 ==> o1[0] in o2;
    assert |o2| > 0 ==> o2[0] in o1;
    if |o1| > 0 && |o2| > 0 {
      var a, b := o1[0], o2[0];
      assert a == b;
      OrderedDistinct(keys, o1);
      OrderedDistinct(keys, o2);
      forall x
        ensures x in o1[1..] <==> x in o2[1..]
      {
        if x in o1[1..] {
          var p :| 0 <= p < |o1| - 1 && o1[1..][p] == x;
          assert o1[p + 1] == x && x != a && x in o1 && x in o2;
          var q :| 0 <= q < |o2| && o2[q] == x;
          assert q != 0 && o2[1..][q - 1] == x;
        }
        if x in o2[1..] {
          var q :| 0 <= q < |o2| - 1 && o2[1..][q] == x;
          assert o2[q + 1] == x && x != b && x in o2 && x in o1;
          var p :| 0 <= p < |o1| && o1[p] == x;
          assert p != 0 && o1[1..][p - 1] == x;
        }
      }
      OrderedUnique(keys, o1[1..], o2[1..]);
      assert o1 == [a] + o1[1..] && o2 == [b] + o2[1..];
    }
  }
  /** The entries of `s` at the positions listed in `o`. */
  function Permute<T>(s: seq<T>, o: seq<nat>): (r: seq<T>)
    requires forall k :: 0 <= k < |o| ==> o[k] < |s|
    ensures |r| == |o| && forall k :: 0 <= k < |o| ==> r[k] == s[o[k]]
  {
    seq(|o|, k requires 0 <= k < |o| => s[o[k]])
  }

  /** A list that names every position of `s` exactly once picks out a
      permutation of `s`. */
  lemma {:induction false} PermutationMultiset<T>(s: seq<T>, o: seq<nat>)
    requires |o| == |s|
    requires forall k :: 0 <= k < |o| ==> o[k] < |s|
    requires forall x: nat :: x < |s| ==> x in o
    requires forall p, q :: 0 <= p < q < |o| ==> o[p] != o[q]
    ensures multiset(Permute(s, o)) == multiset(s)
    decreases |s|
  {
    if |s| > 0 {
      var n := |s| - 1;
      assert n in o;
      var p :| 0 <= p < |o| && o[p] == n;
      var rest := o[..p] + o[p + 1..];
      RemoveLast(o, p);
      PermutationMultiset(s[..n], rest);
      PermuteSplice(s, o, p);
    }
  }

  /** Taking the last position out of a list that names each of `0..|o|`
      once leaves a list naming each of `0..|o|-1` once. */
  lemma RemoveLast(o: seq<nat>, p: nat)
    requires forall k :: 0 <= k < |o| ==> o[k] < |o|
    requires forall x: nat :: x < |o| ==> x in o
    requires forall p, q :: 0 <= p < q < |o| ==> o[p] != o[q]
    requires p < |o| && o[p] == |o| - 1
    ensures var rest := o[..p] + o[p + 1..];
      && |rest| == |o| - 1
      && (forall k :: 0 <= k < |rest| ==> rest[k] < |rest|)
      && (forall x: nat :: x < |rest| ==> x in rest)
      && (forall p, q :: 0 <= p < q < |rest| ==> rest[p] != rest[q])
      && (forall k :: 0 <= k < |o| && k != p ==> o[k] < |o| - 1)
  {
    var rest := o[..p] + o[p + 1..];
    assert forall k :: 0 <= k < |rest| ==> rest[k] == if k < p then o[k] else o[k + 1];
    forall x: nat | x < |rest|
      ensures x in rest
    {
      assert x in o;
      var k :| 0 <= k < |o| && o[k] == x;
      assert k != p;
      if k < p { assert rest[k] == x; } else { assert rest[k - 1] == x; }
    }
  }

  /** Taking out the entry that names the last position. */
  lemma PermuteSplice<T>(s: seq<T>, o: seq<nat>, p: nat)
    requires forall k :: 0 <= k < |o| ==> o[k] < |s|
    requires p < |o| && o[p] == |s| - 1
    requires forall k :: 0 <= k < |o| && k != p ==> o[k] < |s| - 1
    requires multiset(Permute(s[..|s| - 1], o[..p] + o[p + 1..])) == multiset(s[..|s| - 1])
    ensures multiset(Permute(s, o)) == multiset(s)
  {
    var n := |s| - 1;
    var a, b := Permute(s, o[..p]), Permute(s, o[p + 1..]);
    SpliceParts(s, o, p);
    MiddleMultiset(a, s[n], b, s[..n]);
    assert s == s[..n] + [s[n]];
  }

  /** Both reorderings split around the position of the last entry. */
  lemma SpliceParts<T>(s: seq<T>, o: seq<nat>, p: nat)
    requires forall k :: 0 <= k < |o| ==> o[k] < |s|
    requires p < |o| && o[p] == |s| - 1
    requires forall k :: 0 <= k < |o| && k != p ==> o[k] < |s| - 1
    ensures Permute(s[..|s| - 1], o[..p] + o[p + 1..]) == Permute(s, o[..p]) + Permute(s, o[p + 1..])
    ensures Permute(s, o) == Permute(s, o[..p]) + [s[|s| - 1]] + Permute(s, o[p + 1..])
  {
    var rest := o[..p] + o[p + 1..];
    assert forall k :: 0 <= k < |rest| ==> rest[k] == if k < p then o[k] else o[k + 1];
  }

  /** Putting one element back between two parts of a permutation of `t`
      gives a permutation of `t + [x]`. */
  lemma MiddleMultiset<T>(a: seq<T>, x: T, b: seq<T>, t: seq<T>)
    requires multiset(a + b) == multiset(t)
    ensures multiset(a + [x] + b) == multiset(t + [x])
  {
    calc {
      multiset(a + [x] + b);
      multiset(a) + multiset{x} + multiset(b);
      multiset(a + b) + multiset{x};
      multiset(t + [x]);
    }
  }

  lemma PrefixMultiset<T>(s: seq<T>, n: nat)
    requires 0 < n <= |s|
    ensures multiset(s[..n]) == multiset(s[..n - 1]) + multiset{s[n - 1]}
  {
    assert s[..n] == s[..n - 1] + [s[n - 1]];
  }

  /** Reordering by the stable descending order is a permutation. */
  lemma OrderDescMultiset<T>(keys: seq<real>, s: seq<T>)
    requires |s| == |keys|
    ensures multiset(Permute(s, OrderDesc(keys))) == multiset(s)
  {
    var o := OrderDesc(keys);
    OrderedDistinct(keys, o);
    PermutationMultiset(s, o);
  }
}
