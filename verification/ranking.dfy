/**
  The ordering the app applies with `Array.prototype.sort` and a descending comparator
  (`(a, b) => key(b) - key(a)`, src/App.tsx:1590-1592, 1620-1634). That sort is stable
  (section 23.1.3.30 of ECMA-262, 2023 edition), so a stable insertion sort describes its
  result: non-increasing keys, the same elements, and equal keys in their original order.
*/
module Ranking {

  /** Keys never increase from left to right. */
  predicate SortedDesc<T>(s: seq<T>, key: T -> real)
  {
    forall i, j :: 0 <= i < j < |s| ==> key(s[i]) >= key(s[j])
  }

  /**
    Inserts x into a list sorted by non-increasing key, after every element whose key is at
    least key(x), so that x follows the earlier elements it ties with.
  */
  function InsertDesc<T>(t: seq<T>, x: T, key: T -> real): (r: seq<T>)
    ensures |r| == |t| + 1
    ensures multiset(r) == multiset(t) + multiset{x}
  {
    if t == [] then [x]
    else if key(t[|t| - 1]) >= key(x) then t + [x]
    else
      assert t == t[..|t| - 1] + [t[|t| - 1]];
      InsertDesc(t[..|t| - 1], x, key) + [t[|t| - 1]]
  }

  /** Inserting into a sorted list keeps it sorted. */
  lemma {:induction false} InsertDescSorted<T>(t: seq<T>, x: T, key: T -> real)
    requires SortedDesc(t, key)
    ensures SortedDesc(InsertDesc(t, x, key), key)
    decreases |t|
  {
    if t != [] && key(t[|t| - 1]) < key(x) {
      var init, last := t[..|t| - 1], t[|t| - 1];
      assert t == init + [last];
      InsertDescSorted(init, x, key);
      var r' := InsertDesc(init, x, key);
      forall i | 0 <= i < |r'| ensures key(r'[i]) >= key(last) {
        var y := r'[i];
        assert y in multiset(r');
        if y != x {
          assert y in multiset(init);
          var k :| 0 <= k < |init| && init[k] == y;
          assert t[k] == y;
        }
      }
    }
  }

  /** Insertion sort by non-increasing key. */
  function SortDesc<T>(s: seq<T>, key: T -> real): (r: seq<T>)
    ensures |r| == |s|
    ensures multiset(r) == multiset(s)
    ensures SortedDesc(r, key)
  {
    if s == [] then []
    else
      assert s == s[..|s| - 1] + [s[|s| - 1]];
      InsertDescSorted(SortDesc(s[..|s| - 1], key), s[|s| - 1], key);
      InsertDesc(SortDesc(s[..|s| - 1], key), s[|s| - 1], key)
  }

  /** The elements whose key is v, in their order in s. */
  function KeyFilter<T>(s: seq<T>, key: T -> real, v: real): seq<T>
  {
    if s == [] then []
    else KeyFilter(s[..|s| - 1], key, v) + (if key(s[|s| - 1]) == v then [s[|s| - 1]] else [])
  }

  lemma {:induction false} KeyFilterAppend<T>(a: seq<T>, b: seq<T>, key: T -> real, v: real)
    ensures KeyFilter(a + b, key, v) == KeyFilter(a, key, v) + KeyFilter(b, key, v)
    decreases |b|
  {
    if b != [] {
      var init, last := b[..|b| - 1], b[|b| - 1];
      assert (a + b)[..|a + b| - 1] == a + init;
      assert (a + b)[|a + b| - 1] == last;
      KeyFilterAppend(a, init, key, v);
    } else {
      assert a + b == a;
    }
  }

  /** Inserting x puts it after every element it ties with. */
  lemma {:induction false} InsertStable<T>(t: seq<T>, x: T, key: T -> real, v: real)
    ensures KeyFilter(InsertDesc(t, x, key), key, v) == KeyFilter(t, key, v) + KeyFilter([x], key, v)
    decreases |t|
  {
    if t == [] {
    } else if key(t[|t| - 1]) >= key(x) {
      KeyFilterAppend(t, [x], key, v);
    } else {
      var init, last := t[..|t| - 1], t[|t| - 1];
      InsertStable(init, x, key, v);
      KeyFilterAppend(InsertDesc(init, x, key), [last], key, v);
      KeyFilterAppend(init, [last], key, v);
      assert t == init + [last];
    }
  }

  /** Stability: for every key value, the elements with that key keep their relative order. */
  lemma {:induction false} SortStable<T>(s: seq<T>, key: T -> real, v: real)
    ensures KeyFilter(SortDesc(s, key), key, v) == KeyFilter(s, key, v)
  {
    if s != [] {
      var init, last := s[..|s| - 1], s[|s| - 1];
      SortStable(init, key, v);
      InsertStable(SortDesc(init, key), last, key, v);
      assert [last][..0] == [];
    }
  }

  /** The key filter of a prefix is a prefix of the key filter. */
  lemma {:induction false} KeyFilterPrefix<T>(s: seq<T>, m: nat, key: T -> real, v: real)
    requires m <= |s|
    ensures KeyFilter(s[..m], key, v) <= KeyFilter(s, key, v)
  {
    KeyFilterAppend(s[..m], s[m..], key, v);
    assert s[..m] + s[m..] == s;
  }

  /**
    A prefix of a sorted list holds its highest keys: whatever the prefix leaves out has a key
    no greater than any key it keeps.
  */
  lemma SortedPrefixIsTop<T>(s: seq<T>, m: nat, key: T -> real)
    requires SortedDesc(s, key)
    requires m <= |s|
    ensures multiset(s[..m]) <= multiset(s)
    ensures forall e | e in multiset(s) - multiset(s[..m]) :: forall i | 0 <= i < m :: key(e) <= key(s[i])
  {
    assert s == s[..m] + s[m..];
    assert multiset(s) == multiset(s[..m]) + multiset(s[m..]);
    forall e | e in multiset(s) - multiset(s[..m])
      ensures forall i | 0 <= i < m :: key(e) <= key(s[i])
    {
      assert e in multiset(s[m..]);
      var k :| 0 <= k < |s[m..]| && s[m..][k] == e;
      assert s[m + k] == e;
    }
  }

  /** A prefix of a sorted list is sorted. */
  lemma PrefixSorted<T>(s: seq<T>, m: nat, key: T -> real)
    requires SortedDesc(s, key)
    requires m <= |s|
    ensures SortedDesc(s[..m], key)
  {
  }

  /**
    `r` holds the highest keys of `s`: it takes its elements from `s`, and whatever it leaves
    out has a key no greater than any key it keeps.
  */
  ghost predicate KeepsTop<T>(s: seq<T>, r: seq<T>, key: T -> real)
  {
    && multiset(r) <= multiset(s)
    && forall e | e in multiset(s) - multiset(r) :: forall i | 0 <= i < |r| :: key(e) <= key(r[i])
  }

  /** `[...s].sort(by key descending).slice(0, m)`: the m elements with the highest keys, in order. */
  function TopByKey<T>(s: seq<T>, m: nat, key: T -> real): (r: seq<T>)
    ensures |r| == if |s| < m then |s| else m
    ensures SortedDesc(r, key)
    ensures KeepsTop(s, r, key)
  {
    var sorted := SortDesc(s, key);
    var n := if |s| < m then |s| else m;
    PrefixSorted(sorted, n, key);
    SortedPrefixIsTop(sorted, n, key);
    sorted[..n]
  }

  /** Elements of the result come from the input. */
  lemma TopByKeyMembers<T>(s: seq<T>, m: nat, key: T -> real)
    ensures forall i :: 0 <= i < |TopByKey(s, m, key)| ==> TopByKey(s, m, key)[i] in s
  {
    var r := TopByKey(s, m, key);
    forall i | 0 <= i < |r| ensures r[i] in s {
      assert r[i] in multiset(r);
    }
  }

  /** Ties keep their order: the kept elements with key v are the first ones with key v in s. */
  lemma TopByKeyKeepsTies<T>(s: seq<T>, m: nat, key: T -> real, v: real)
    ensures KeyFilter(TopByKey(s, m, key), key, v) <= KeyFilter(s, key, v)
  {
    var sorted := SortDesc(s, key);
    var n := |TopByKey(s, m, key)|;
    assert TopByKey(s, m, key) == sorted[..n];
    KeyFilterPrefix(sorted, n, key, v);
    SortStable(s, key, v);
  }
}
