/** Totals over the entries of a map or the elements of a set, in no particular order. */
module Sums {

  ghost function OverMap<K(!new), V(!new)>(m: map<K, V>, f: (K, V) -> int): int {
    if m == map[] then 0
    else
      var k :| k in m;
      f(k, m[k]) + OverMap(m - {k}, f)
  }

  lemma Empty<K(!new), V(!new)>(f: (K, V) -> int)
    ensures OverMap(map[], f) == 0
  {}

  /** Any entry can be split off first. */
  lemma {:induction false} MapWithout<K(!new), V(!new)>(m: map<K, V>, f: (K, V) -> int, k: K)
    requires k in m
    ensures OverMap(m, f) == f(k, m[k]) + OverMap(m - {k}, f)
    decreases |m|
  {
    var j :| j in m && OverMap(m, f) == f(j, m[j]) + OverMap(m - {j}, f);
    if j != k {
      MapWithout(m - {j}, f, k);
      MapWithout(m - {k}, f, j);
      assert m - {j} - {k} == m - {k} - {j};
    }
  }

  /** Replacing or adding one entry changes the total by that entry's share. */
  lemma MapUpdate<K(!new), V(!new)>(m: map<K, V>, f: (K, V) -> int, k: K, v: V)
    ensures OverMap(m[k := v], f) == OverMap(m, f) - (if k in m then f(k, m[k]) else 0) + f(k, v)
  {
    hide OverMap;
    MapWithout(m[k := v], f, k);
    if k in m {
      MapWithout(m, f, k);
      assert m[k := v] - {k} == m - {k};
    } else {
      assert m[k := v] - {k} == m;
    }
  }

  lemma CountWithout<K(!new), V(!new)>(m: map<K, V>, k: K)
    ensures |m - {k}| == |m| - if k in m then 1 else 0
  {
    assert (m - {k}).Keys == m.Keys - {k};
    assert |m - {k}| == |(m - {k}).Keys| && |m| == |m.Keys|;
  }

  /** If no share is negative, the total is at least every single one. */
  lemma {:induction false} MapNonNegative<K(!new), V(!new)>(m: map<K, V>, f: (K, V) -> int)
    requires forall k :: k in m ==> f(k, m[k]) >= 0
    ensures OverMap(m, f) >= 0
    ensures forall k :: k in m ==> f(k, m[k]) <= OverMap(m, f)
    decreases |m|
  {
    hide OverMap;
    if m == map[] {
      Empty(f);
    } else {
      forall k | k in m
        ensures 0 <= f(k, m[k]) <= OverMap(m, f)
      {
        MapWithout(m, f, k);
        MapNonNegative(m - {k}, f);
      }
      var k :| k in m;
    }
  }

  lemma {:induction false} MapZero<K(!new), V(!new)>(m: map<K, V>, f: (K, V) -> int)
    requires forall k :: k in m ==> f(k, m[k]) == 0
    ensures OverMap(m, f) == 0
    decreases |m|
  {
    hide OverMap;
    if m == map[] {
      Empty(f);
    } else {
      var k :| k in m;
      MapWithout(m, f, k);
      MapZero(m - {k}, f);
    }
  }

  ghost function OverSet<K(!new)>(s: set<K>, f: K -> int): int {
    if s == {} then 0
    else
      var k :| k in s;
      f(k) + OverSet(s - {k}, f)
  }

  lemma {:induction false} SetWithout<K(!new)>(s: set<K>, f: K -> int, k: K)
    requires k in s
    ensures OverSet(s, f) == f(k) + OverSet(s - {k}, f)
    decreases |s|
  {
    var j :| j in s && OverSet(s, f) == f(j) + OverSet(s - {j}, f);
    if j != k {
      SetWithout(s - {j}, f, k);
      SetWithout(s - {k}, f, j);
      assert s - {j} - {k} == s - {k} - {j};
    }
  }

  lemma {:induction false} SetAdds<K(!new)>(s: set<K>, f: K -> int, g: K -> int, h: K -> int)
    requires forall k :: k in s ==> h(k) == f(k) + g(k)
    ensures OverSet(s, h) == OverSet(s, f) + OverSet(s, g)
    decreases |s|
  {
    if s != {} {
      var k :| k in s;
      SetWithout(s, f, k);
      SetWithout(s, g, k);
      SetWithout(s, h, k);
      SetAdds(s - {k}, f, g, h);
    }
  }

  /** A quantity that only one element receives is counted at most once. */
  lemma {:induction false} SetPoint<K(!new)>(s: set<K>, f: K -> int, at: K, amount: nat)
    requires forall k :: k in s ==> f(k) == if k == at then amount else 0
    ensures OverSet(s, f) == if at in s then amount else 0
    decreases |s|
  {
    if s != {} {
      var k :| k in s;
      SetWithout(s, f, k);
      SetPoint(s - {k}, f, at, amount);
    }
  }

  /** The total over a set is the total over its image under a renaming. */
  lemma {:induction false} SetImage<K(!new), L(!new)>(s: set<K>, f: K -> int, t: set<L>, g: L -> int, name: K -> L)
    requires (forall k :: k in s ==> name(k) in t && g(name(k)) == f(k)) && |t| == |s|
    requires forall j, k :: j in s && k in s && name(j) == name(k) ==> j == k
    ensures OverSet(t, g) == OverSet(s, f)
    decreases |s|
  {
    if s != {} {
      var k :| k in s;
      SetWithout(s, f, k);
      SetWithout(t, g, name(k));
      SetImage(s - {k}, f, t - {name(k)}, g, name);
    }
  }

  lemma {:induction false} SetMonotone<K(!new)>(s: set<K>, f: K -> int, g: K -> int)
    requires forall k :: k in s ==> f(k) <= g(k)
    ensures OverSet(s, f) <= OverSet(s, g)
    decreases |s|
  {
    if s != {} {
      var k :| k in s;
      SetWithout(s, f, k);
      SetWithout(s, g, k);
      SetMonotone(s - {k}, f, g);
    }
  }

  lemma {:induction false} SetZero<K(!new)>(s: set<K>, f: K -> int)
    requires forall k :: k in s ==> f(k) == 0
    ensures OverSet(s, f) == 0
    decreases |s|
  {
    if s != {} {
      var k :| k in s;
      SetWithout(s, f, k);
      SetZero(s - {k}, f);
    }
  }

  lemma {:induction false} SetNonNegative<K(!new)>(s: set<K>, f: K -> int)
    requires forall k :: k in s ==> f(k) >= 0
    ensures OverSet(s, f) >= 0
    decreases |s|
  {
    if s != {} {
      var k :| k in s;
      SetWithout(s, f, k);
      SetNonNegative(s - {k}, f);
    }
  }
}
