/** Selecting and counting the entries of a registry that satisfy a predicate. */
module MapCount {
  function KeysWhere<K, V>(m: map<K, V>, p: V -> bool): set<K> {
    set k | k in m && p(m[k])
  }

  /** The entries that satisfy `p`, as a map of their own. */
  function Where<K, V>(m: map<K, V>, p: V -> bool): map<K, V> {
    map k | k in m && p(m[k]) :: m[k]
  }

  function Without<K, V>(m: map<K, V>, gone: V -> bool): map<K, V> {
    map k | k in m && !gone(m[k]) :: m[k]
  }

  function CountWhere<K, V>(m: map<K, V>, p: V -> bool): nat {
    |KeysWhere(m, p)|
  }

  function CountBoth<K, V>(m: map<K, V>, p: V -> bool, q: V -> bool): nat {
    |KeysWhere(m, p) * KeysWhere(m, q)|
  }

  /** How many of the given keys are entries that satisfy `p`. */
  function CountIn<K, V>(m: map<K, V>, ks: set<K>, p: V -> bool): nat {
    |ks * KeysWhere(m, p)|
  }

  lemma CountInsert<K, V>(m: map<K, V>, k: K, v: V, p: V -> bool)
    requires k !in m
    ensures CountWhere(m[k := v], p) == CountWhere(m, p) + (if p(v) then 1 else 0)
  {
    assert KeysWhere(m[k := v], p) == if p(v) then KeysWhere(m, p) + {k} else KeysWhere(m, p);
  }

  lemma CountDelete<K, V>(m: map<K, V>, k: K, p: V -> bool)
    requires k in m
    ensures CountWhere(m - {k}, p) == CountWhere(m, p) - (if p(m[k]) then 1 else 0)
  {
    assert KeysWhere(m, p) == if p(m[k]) then KeysWhere(m - {k}, p) + {k} else KeysWhere(m - {k}, p);
  }

  lemma SetMinus<K>(before: set<K>, after: set<K>, lost: set<K>)
    requires before == after + lost && after !! lost
    ensures |after| == |before| - |lost|
  {}

  /** Dropping every entry that satisfies `gone` lowers a count by those it shared with it. */
  lemma CountWithout<K, V>(m: map<K, V>, gone: V -> bool, p: V -> bool)
    ensures CountWhere(Without(m, gone), p) == CountWhere(m, p) - CountBoth(m, gone, p)
  {
    SetMinus(KeysWhere(m, p), KeysWhere(Without(m, gone), p), KeysWhere(m, gone) * KeysWhere(m, p));
  }

  lemma CountMinus<K, V>(m: map<K, V>, ks: set<K>, p: V -> bool)
    ensures CountWhere(m - ks, p) == CountWhere(m, p) - CountIn(m, ks, p)
  {
    SetMinus(KeysWhere(m, p), KeysWhere(m - ks, p), ks * KeysWhere(m, p));
  }

  /** Counts add up over two predicates that no entry satisfies together. */
  lemma CountSplit<K, V>(m: map<K, V>, whole: V -> bool, p: V -> bool, q: V -> bool)
    requires forall v :: whole(v) <==> p(v) || q(v)
    requires forall v :: !(p(v) && q(v))
    ensures CountWhere(m, whole) == CountWhere(m, p) + CountWhere(m, q)
  {
    SetMinus(KeysWhere(m, whole), KeysWhere(m, p), KeysWhere(m, q));
  }

  lemma WhereInsert<K, V>(m: map<K, V>, k: K, v: V, p: V -> bool)
    requires k !in m
    ensures Where(m[k := v], p) == if p(v) then Where(m, p)[k := v] else Where(m, p)
  {}

  lemma WhereWithout<K, V>(m: map<K, V>, gone: V -> bool, p: V -> bool)
    ensures Where(Without(m, gone), p) == Where(m, p) - KeysWhere(m, gone) * KeysWhere(m, p)
  {}

  lemma WhereMinus<K, V>(m: map<K, V>, ks: set<K>, p: V -> bool)
    ensures Where(m - ks, p) == Where(m, p) - ks
    ensures Where(m - ks, p) == Where(m, p) - ks * KeysWhere(m, p)
  {}

  lemma WithoutIsMinus<K, V>(m: map<K, V>, gone: V -> bool)
    ensures Without(m, gone) == m - KeysWhere(m, gone)
  {}

  /** Visiting `k` moves it from the unvisited part of a set to the visited one. */
  lemma SetStep<K>(s: set<K>, left: set<K>, k: K)
    requires k in left
    ensures k in s ==> s - (left - {k}) == (s - left) + {k} && |s - (left - {k})| == |s - left| + 1
    ensures k !in s ==> s - (left - {k}) == s - left
  {
    if k in s {
      assert s - (left - {k}) == (s - left) + {k};
    } else {
      assert s - (left - {k}) == s - left;
    }
  }

  /** The same for a map from which the visited part of `s` is deleted. */
  lemma MinusStep<K, V>(m: map<K, V>, s: set<K>, left: set<K>, k: K)
    requires k in left && left <= m.Keys
    ensures k in m - (s - left) && (m - (s - left))[k] == m[k]
    ensures k in s ==> m - (s - left) - {k} == m - (s - (left - {k}))
    ensures k !in s ==> m - (s - left) == m - (s - (left - {k}))
  {
    SetStep(s, left, k);
  }
}
