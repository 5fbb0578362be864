/** Counting the keys of a map whose value has a property. */
module Counting {
  import opened Base

  function Count<K, V>(m: map<K, V>, p: V -> bool): nat {
    |set k | k in m && p(m[k])|
  }

  lemma CountSplit<K, V>(m: map<K, V>, k: K, p: V -> bool)
    requires k in m
    ensures Count(m, p) == |set j | j in m && j != k && p(m[j])| + ToInt(p(m[k]))
  {
    var rest := set j | j in m && j != k && p(m[j]);
    assert (set j | j in m && p(m[j])) == if p(m[k]) then rest + {k} else rest;
  }

  lemma CountUpdate<K, V>(m: map<K, V>, k: K, v: V, p: V -> bool)
    requires k in m
    ensures Count(m[k := v], p) == Count(m, p) - ToInt(p(m[k])) + ToInt(p(v))
  {
    var m' := m[k := v];
    CountSplit(m, k, p);
    CountSplit(m', k, p);
    assert (set j | j in m && j != k && p(m[j])) == (set j | j in m' && j != k && p(m'[j]));
  }

  lemma CountMonotone<K, V>(m: map<K, V>, p: V -> bool, q: V -> bool)
    requires forall k :: k in m && p(m[k]) ==> q(m[k])
    ensures Count(m, p) <= Count(m, q)
  {
    Within(set k | k in m && p(m[k]), set k | k in m && q(m[k]));
  }

  lemma CountAll<K, V>(m: map<K, V>, p: V -> bool)
    ensures Count(m, p) <= |m|
    ensures forall k :: k in m && !p(m[k]) ==> Count(m, p) < |m|
    ensures forall k :: k in m && p(m[k]) ==> 0 < Count(m, p)
    ensures 0 < Count(m, p) ==> exists k :: k in m && p(m[k])
  {
    var s := set k | k in m && p(m[k]);
    Within(s, m.Keys);
    forall k | k in m && !p(m[k]) ensures |s| < |m| {
      Within(s, m.Keys - {k});
    }
    if s != {} {
      var k :| k in s;
    }
  }

  lemma {:induction false} Within<T>(a: set<T>, b: set<T>)
    requires a <= b
    ensures |a| <= |b|
  {
    if a != {} {
      var x :| x in a;
      Within(a - {x}, b - {x});
    }
  }
}
