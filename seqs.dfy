/** Generic facts about sequences used by the list comprehensions and
    accumulating loops of the model. */
module Seqs {
  import opened Wrappers

  /** `r` is `s` with zero or more elements removed and the rest kept in order. */
  predicate IsSubsequence<T(==)>(r: seq<T>, s: seq<T>)
    decreases |s|
  {
    if r == [] then true
    else if s == [] then false
    else if r[|r| - 1] == s[|s| - 1] then IsSubsequence(r[..|r| - 1], s[..|s| - 1])
    else IsSubsequence(r, s[..|s| - 1])
  }

  lemma AppendAssoc<T>(a: seq<T>, b: seq<T>, c: seq<T>)
    ensures a + (b + c) == (a + b) + c
  {
  }

  /** The elements of `s` that satisfy `p`, in their original order
      (a Python list comprehension with an `if` clause). */
  function Filter<T(==,!new)>(s: seq<T>, p: T -> bool): (r: seq<T>)
    ensures IsSubsequence(r, s)
    ensures forall x :: multiset(r)[x] == if p(x) then multiset(s)[x] else 0
    decreases |s|
  {
    if s == [] then []
    else
      var init, last := s[..|s| - 1], s[|s| - 1];
      assert s == init + [last];
      var rest := Filter(init, p);
      if p(last) then
        assert (rest + [last])[..|rest|] == rest;
        rest + [last]
      else
        assert rest != [] ==> multiset(rest)[rest[|rest| - 1]] > 0;
        rest
  }

  lemma {:induction false} FilterMembers<T(!new)>(s: seq<T>, p: T -> bool)
    ensures forall x :: x in Filter(s, p) <==> x in s && p(x)
  {
    var r := Filter(s, p);
    forall x ensures x in r <==> x in s && p(x) {
      assert x in r <==> multiset(r)[x] > 0;
      assert x in s <==> multiset(s)[x] > 0;
    }
  }

  lemma {:induction false} FilterNone<T(!new)>(s: seq<T>, p: T -> bool)
    requires forall i :: 0 <= i < |s| ==> !p(s[i])
    ensures Filter(s, p) == []
  {
    var r := Filter(s, p);
    forall x ensures multiset(r)[x] == 0 {
      assert p(x) ==> x !in s;
    }
    assert multiset(r) == multiset{};
  }

  /** One more element extends the filtered prefix by that element when it
      passes, and leaves it alone otherwise. */
  lemma FilterStep<T(!new)>(s: seq<T>, i: nat, p: T -> bool)
    requires i < |s|
    ensures Filter(s[..i + 1], p) == Filter(s[..i], p) + (if p(s[i]) then [s[i]] else [])
  {
    assert s[..i + 1][..i] == s[..i];
  }

  lemma {:induction false} FilterAll<T(!new)>(s: seq<T>, p: T -> bool)
    requires forall i :: 0 <= i < |s| ==> p(s[i])
    ensures Filter(s, p) == s
    decreases |s|
  {
    if s != [] {
      var init := s[..|s| - 1];
      FilterAll(init, p);
      assert s == init + [s[|s| - 1]];
    }
  }

  /** The first element of `s` that satisfies `p` (a `for` loop with an early return). */
  function First<T>(s: seq<T>, p: T -> bool): (r: Option<T>)
    ensures r.Some? ==> exists i :: 0 <= i < |s| && s[i] == r.value && p(s[i])
                                    && forall j :: 0 <= j < i ==> !p(s[j])
    ensures r.None? <==> forall i :: 0 <= i < |s| ==> !p(s[i])
  {
    if s == [] then None
    else if p(s[0]) then Some(s[0])
    else
      var r := First(s[1..], p);
      assert forall i :: 1 <= i < |s| ==> s[i] == s[1..][i - 1];
      r
  }

  /** The last element of `s` that satisfies `p` (the value a dictionary keeps
      when every match overwrites the previous one). */
  function Last<T>(s: seq<T>, p: T -> bool): (r: Option<T>)
    ensures r.Some? ==> exists i :: 0 <= i < |s| && s[i] == r.value && p(s[i])
                                    && forall j :: i < j < |s| ==> !p(s[j])
    ensures r.None? <==> forall i :: 0 <= i < |s| ==> !p(s[i])
    decreases |s|
  {
    if s == [] then None
    else if p(s[|s| - 1]) then Some(s[|s| - 1])
    else Last(s[..|s| - 1], p)
  }

  /** Sum of the lengths of the lists stored under `keys`. */
  ghost function SumSizes<K, V>(m: map<K, seq<V>>, keys: set<K>): nat
    requires keys <= m.Keys
    decreases keys
  {
    if keys == {} then 0
    else
      var k :| k in keys;
      |m[k]| + SumSizes(m, keys - {k})
  }

  lemma {:induction false} SumSizesPick<K, V>(m: map<K, seq<V>>, keys: set<K>, k: K)
    requires keys <= m.Keys && k in keys
    ensures SumSizes(m, keys) == |m[k]| + SumSizes(m, keys - {k})
    decreases keys
  {
    var j :| j in keys && SumSizes(m, keys) == |m[j]| + SumSizes(m, keys - {j});
    if j != k {
      SumSizesPick(m, keys - {j}, k);
      SumSizesPick(m, keys - {k}, j);
      assert keys - {j} - {k} == keys - {k} - {j};
    }
  }

  lemma {:induction false} SumSizesAgree<K, V>(m1: map<K, seq<V>>, m2: map<K, seq<V>>, keys: set<K>)
    requires keys <= m1.Keys && keys <= m2.Keys
    requires forall k :: k in keys ==> |m1[k]| == |m2[k]|
    ensures SumSizes(m1, keys) == SumSizes(m2, keys)
    decreases keys
  {
    if keys != {} {
      var k :| k in keys;
      SumSizesPick(m1, keys, k);
      SumSizesPick(m2, keys, k);
      SumSizesAgree(m1, m2, keys - {k});
    }
  }

  /** Appending one element to the list under `k` (creating it when absent)
      adds one to the total size. */
  lemma SumSizesAppend<K, V>(m: map<K, seq<V>>, k: K, x: V)
    ensures SumSizes(m[k := (if k in m then m[k] else []) + [x]], m.Keys + {k}) == SumSizes(m, m.Keys) + 1
  {
    var m' := m[k := (if k in m then m[k] else []) + [x]];
    var keys' := m.Keys + {k};
    assert keys' == m'.Keys;
    SumSizesPick(m', keys', k);
    SumSizesAgree(m', m, keys' - {k});
    if k in m {
      SumSizesPick(m, m.Keys, k);
      assert keys' - {k} == m.Keys - {k};
    } else {
      assert keys' - {k} == m.Keys;
    }
  }
}

