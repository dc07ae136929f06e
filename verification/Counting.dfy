/** How many values of a finite map satisfy a predicate, and how that number moves when one key changes. */
module Counting {

  ghost function Matching<K, V>(m: map<K, V>, f: V -> bool): set<K> {
    set k | k in m && f(m[k])
  }

  ghost function Count<K, V>(m: map<K, V>, f: V -> bool): nat {
    |Matching(m, f)|
  }

  function Bit(b: bool): nat {
    if b then 1 else 0
  }

  lemma CountInsert<K, V>(m: map<K, V>, k: K, v: V, f: V -> bool)
    requires k !in m
    ensures Count(m[k := v], f) == Count(m, f) + Bit(f(v))
  {
    if f(v) {
      assert Matching(m[k := v], f) == Matching(m, f) + {k};
    } else {
      assert Matching(m[k := v], f) == Matching(m, f);
    }
  }

  lemma CountRemove<K, V>(m: map<K, V>, k: K, f: V -> bool)
    requires k in m
    ensures Count(m - {k}, f) == Count(m, f) - Bit(f(m[k]))
  {
    if f(m[k]) {
      assert Matching(m, f) == Matching(m - {k}, f) + {k};
    } else {
      assert Matching(m, f) == Matching(m - {k}, f);
    }
  }

  lemma CountUpdate<K, V>(m: map<K, V>, k: K, v: V, f: V -> bool)
    requires k in m
    ensures Count(m[k := v], f) == Count(m, f) - Bit(f(m[k])) + Bit(f(v))
  {
    CountRemove(m, k, f);
    CountInsert(m - {k}, k, v, f);
    assert (m - {k})[k := v] == m[k := v];
  }

  lemma CountZero<K, V>(m: map<K, V>, f: V -> bool)
    ensures Count(m, f) == 0 <==> forall k | k in m :: !f(m[k])
  {
    if k :| k in m && f(m[k]) {
      assert k in Matching(m, f);
    }
  }

  /** The pigeonhole principle: an injective map embeds its domain in any set that holds its values. */
  lemma {:induction false} Pigeonhole<K, V>(domain: set<K>, m: map<K, V>, range: set<V>)
    requires forall k | k in domain :: k in m && m[k] in range
    requires forall k, l | k in domain && l in domain && k != l :: m[k] != m[l]
    ensures |domain| <= |range|
  {
    if domain != {} {
      var k :| k in domain;
      Pigeonhole(domain - {k}, m, range - {m[k]});
    }
  }

  /** If a partial injection avoids one of at most |domain| values, it leaves some of the domain unmapped. */
  lemma UnmappedExists<K, V>(domain: set<K>, m: map<K, V>, range: set<V>, spare: V)
    requires spare in range && |range| <= |domain|
    requires forall k | k in domain && k in m :: m[k] in range && m[k] != spare
    requires forall k, l | k in domain && l in domain && k in m && l in m && k != l :: m[k] != m[l]
    ensures domain - m.Keys != {}
  {
    if domain - m.Keys == {} {
      forall k | k in domain ensures k in m {
        assert k !in domain - m.Keys;
      }
      Pigeonhole(domain, m, range - {spare});
      assert false;
    }
  }

  /** A nonempty finite set has an element of least weight. */
  lemma {:induction false} Least<T>(s: set<T>, weight: map<T, int>) returns (least: T)
    requires s != {} && forall x | x in s :: x in weight
    ensures least in s && forall x | x in s :: weight[least] <= weight[x]
  {
    least :| least in s;
    if s != {least} {
      var rest := Least(s - {least}, weight);
      if weight[rest] < weight[least] {
        least := rest;
      }
    }
  }
}
