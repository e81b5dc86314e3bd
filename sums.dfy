/**
 * Sums over the values of a dict, as Python's `sum(d.values())` and a
 * loop over `d.items()` compute them. A dict's iteration order does not
 * change a sum of reals, so the sum is defined over the key set, picking
 * keys in an arbitrary order.
 */
module Sums {

  ghost function AnyKey(keys: set<string>): string
    requires keys != {}
  {
    var k :| k in keys; k
  }

  /** The sum of m's values over the given keys. */
  ghost function SumOver(m: map<string, real>, keys: set<string>): real
    requires keys <= m.Keys
    decreases keys
  {
    if keys == {} then 0.0
    else var k := AnyKey(keys); m[k] + SumOver(m, keys - {k})
  }

  /** The sum does not depend on which key is taken first. */
  lemma {:induction false} SumOverRemove(m: map<string, real>, keys: set<string>, k: string)
    requires keys <= m.Keys && k in keys
    ensures SumOver(m, keys) == m[k] + SumOver(m, keys - {k})
    decreases keys
  {
    var first := AnyKey(keys);
    if first != k {
      SumOverRemove(m, keys - {first}, k);
      SumOverRemove(m, keys - {k}, first);
      assert keys - {first} - {k} == keys - {k} - {first};
    }
  }

  /** Two dicts that agree on the keys have the same sum over them. */
  lemma {:induction false} SumOverAgree(m1: map<string, real>, m2: map<string, real>, keys: set<string>)
    requires keys <= m1.Keys && keys <= m2.Keys
    requires forall k :: k in keys ==> m1[k] == m2[k]
    ensures SumOver(m1, keys) == SumOver(m2, keys)
    decreases keys
  {
    if keys != {} {
      SumOverAgree(m1, m2, keys - {AnyKey(keys)});
    }
  }

  /** `sum(m.values())`, computed by a loop over the keys. */
  method SumValues(m: map<string, real>) returns (total: real)
    ensures total == SumOver(m, m.Keys)
  {
    total := 0.0;
    var pending := m.Keys;
    while pending != {}
      invariant pending <= m.Keys
      invariant total + SumOver(m, pending) == SumOver(m, m.Keys)
      decreases pending
    {
      var k :| k in pending;
      SumOverRemove(m, pending, k);
      total := total + m[k];
      pending := pending - {k};
    }
  }
}
