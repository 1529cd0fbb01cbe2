/** Sums of money over the keys of a map, independent of the order the keys are
    visited in (a `HashMap` iteration order is unspecified). */
module Sums {

  /** Some element of a non-empty set. */
  ghost function Pick<K>(keys: set<K>): (k: K)
    requires keys != {}
    ensures k in keys
  {
    var k :| k in keys; k
  }

  /** The total of `amount[k]` over every `k` in `keys`. */
  ghost function Sum<K>(keys: set<K>, amount: map<K, real>): real
    requires keys <= amount.Keys
    decreases keys
  {
    if keys == {} then 0.0
    else
      var k := Pick(keys);
      amount[k] + Sum(keys - {k}, amount)
  }

  /** Any key may be taken out of the sum first: the total does not depend on the
      visiting order. */
  lemma {:induction false} SumPick<K>(keys: set<K>, amount: map<K, real>, k: K)
    requires keys <= amount.Keys && k in keys
    ensures Sum(keys, amount) == amount[k] + Sum(keys - {k}, amount)
    decreases keys
  {
    var j := Pick(keys);
    if j != k {
      SumPick(keys - {j}, amount, k);
      SumPick(keys - {k}, amount, j);
      assert keys - {j} - {k} == keys - {k} - {j};
    }
  }

  /** The sum reads `amount` only at `keys`. */
  lemma {:induction false} SumAgree<K>(keys: set<K>, a: map<K, real>, b: map<K, real>)
    requires keys <= a.Keys && keys <= b.Keys
    requires forall k :: k in keys ==> a[k] == b[k]
    ensures Sum(keys, a) == Sum(keys, b)
    decreases keys
  {
    if keys != {} {
      var k := Pick(keys);
      SumAgree(keys - {k}, a, b);
    }
  }

  /** Adding one new key `k` to a sum adds `b[k]`, where `b` agrees with `a` on the
      old keys. */
  lemma SumInsert<K>(keys: set<K>, a: map<K, real>, b: map<K, real>, k: K)
    requires k !in keys && keys <= a.Keys && keys + {k} <= b.Keys
    requires forall j :: j in keys ==> a[j] == b[j]
    ensures Sum(keys + {k}, b) == Sum(keys, a) + b[k]
  {
    SumPick(keys + {k}, b, k);
    assert keys + {k} - {k} == keys;
    SumAgree(keys, a, b);
  }

  /** Changing the sum at one key `k` only (adding it, dropping it, or changing its
      amount) changes the total by the difference at `k`. */
  lemma SumChange<K>(ka: set<K>, a: map<K, real>, kb: set<K>, b: map<K, real>, k: K)
    requires ka <= a.Keys && kb <= b.Keys && ka - {k} == kb - {k}
    requires forall j :: j in ka && j != k ==> j in b && a[j] == b[j]
    ensures Sum(kb, b) == Sum(ka, a) - (if k in ka then a[k] else 0.0) + (if k in kb then b[k] else 0.0)
  {
    var rest := ka - {k};
    if k in ka {
      assert ka == rest + {k};
      SumInsert(rest, a, a, k);
    } else {
      assert ka == rest;
    }
    if k in kb {
      assert kb == rest + {k};
      SumInsert(rest, a, b, k);
    } else {
      assert kb == rest;
      SumAgree(rest, a, b);
    }
  }

  /** A sum of non-negative amounts is non-negative. */
  lemma {:induction false} SumNonNegative<K>(keys: set<K>, amount: map<K, real>)
    requires keys <= amount.Keys
    ensures (forall k :: k in keys ==> amount[k] >= 0.0) ==> Sum(keys, amount) >= 0.0
    decreases keys
  {
    if keys != {} {
      SumNonNegative(keys - {Pick(keys)}, amount);
    }
  }
}
