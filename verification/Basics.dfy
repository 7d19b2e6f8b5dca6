/** Shared vocabulary: optional values, machine-integer bounds and finite sums. */
module Basics {
  datatype Option<+T> = None | Some(value: T)

  function GetOr(o: Option<nat>, default: nat): nat {
    if o.Some? then o.value else default
  }

  type Byte = b: nat | b < 256

  const U64_MAX: nat := 0xFFFF_FFFF_FFFF_FFFF
  const U128_MAX: nat := 0xFFFF_FFFF_FFFF_FFFF_FFFF_FFFF_FFFF_FFFF

  /** Rust's `saturating_sub` on an unsigned type. */
  function SatSub(a: nat, b: nat): nat {
    if a < b then 0 else a - b
  }

  /** Rust's `saturating_add` on an unsigned type whose largest value is `max`. */
  function SatAdd(a: nat, b: nat, max: nat): nat {
    if a + b > max then max else a + b
  }

  /** The sum of the values of a finite map. */
  ghost function MapSum<K(!new)>(m: map<K, nat>): nat
    decreases |m|
  {
    if m.Keys == {} then 0
    else
      var k :| k in m.Keys;
      m[k] + MapSum(m - {k})
  }

  ghost function ValueAt<K(!new)>(m: map<K, nat>, k: K): nat {
    if k in m then m[k] else 0
  }

  /** Any key may be taken out first. */
  lemma {:induction false} MapSumSplit<K(!new)>(m: map<K, nat>, k: K)
    requires k in m
    ensures MapSum(m) == m[k] + MapSum(m - {k})
    decreases |m|
  {
    var first :| first in m.Keys && MapSum(m) == m[first] + MapSum(m - {first});
    if first != k {
      MapSumSplit(m - {first}, k);
      MapSumSplit(m - {k}, first);
      assert m - {first} - {k} == m - {k} - {first};
    }
  }

  /** Writing one entry changes the sum by the difference at that entry. */
  lemma MapSumWrite<K(!new)>(m: map<K, nat>, k: K, v: nat)
    ensures MapSum(m[k := v]) == MapSum(m) - ValueAt(m, k) + v
  {
    MapSumSplit(m[k := v], k);
    if k in m {
      MapSumSplit(m, k);
      assert m[k := v] - {k} == m - {k};
    } else {
      assert m[k := v] - {k} == m;
    }
  }

  lemma MapSumAtLeast<K(!new)>(m: map<K, nat>, k: K)
    ensures ValueAt(m, k) <= MapSum(m)
  {
    if k in m {
      MapSumSplit(m, k);
    }
  }

  lemma MapSumRemove<K(!new)>(m: map<K, nat>, k: K)
    ensures MapSum(m - {k}) == MapSum(m) - ValueAt(m, k)
  {
    if k in m {
      MapSumSplit(m, k);
    } else {
      assert m - {k} == m;
    }
  }

  /** Smaller entries, smaller sum. */
  lemma {:induction false} MapSumBelow<K(!new)>(a: map<K, nat>, b: map<K, nat>)
    requires forall k :: k in a ==> a[k] <= ValueAt(b, k)
    ensures MapSum(a) <= MapSum(b)
    decreases |a|
  {
    if a.Keys != {} {
      var k :| k in a.Keys;
      MapSumSplit(a, k);
      MapSumRemove(b, k);
      MapSumBelow(a - {k}, b - {k});
    }
  }

  /** Maps that agree but at one key, where either may have no entry. */
  lemma MapSumMove<K(!new)>(a: map<K, nat>, b: map<K, nat>, k: K)
    requires forall x :: x != k ==> (x in a <==> x in b)
    requires forall x :: x in a && x != k ==> b[x] == a[x]
    ensures MapSum(b) - ValueAt(b, k) == MapSum(a) - ValueAt(a, k)
  {
    MapSumRemove(a, k);
    MapSumRemove(b, k);
    assert a - {k} == b - {k};
  }

  ghost predicate Balanced<K(!new)>(a: map<K, nat>, b: map<K, nat>, c: map<K, nat>, d: map<K, nat>) {
    forall k :: ValueAt(a, k) + ValueAt(b, k) == ValueAt(c, k) + ValueAt(d, k)
  }

  lemma ValueWithout<K(!new)>(m: map<K, nat>, k: K, x: K)
    ensures ValueAt(m - {k}, x) == if x == k then 0 else ValueAt(m, x)
  {
  }

  lemma BalancedWithout<K(!new)>(a: map<K, nat>, b: map<K, nat>, c: map<K, nat>, d: map<K, nat>, k: K)
    requires Balanced(a, b, c, d)
    ensures Balanced(a - {k}, b - {k}, c - {k}, d - {k})
  {
    forall x
      ensures ValueAt(a - {k}, x) + ValueAt(b - {k}, x) == ValueAt(c - {k}, x) + ValueAt(d - {k}, x)
    {
      ValueWithout(a, k, x);
      ValueWithout(b, k, x);
      ValueWithout(c, k, x);
      ValueWithout(d, k, x);
      assert ValueAt(a, x) + ValueAt(b, x) == ValueAt(c, x) + ValueAt(d, x);
    }
  }

  /** Four maps that add up entry by entry add up as a whole. */
  lemma {:induction false} MapSumBalance<K(!new)>(
    a: map<K, nat>, b: map<K, nat>, c: map<K, nat>, d: map<K, nat>, keys: set<K>)
    requires Balanced(a, b, c, d) && a.Keys <= keys && b.Keys <= keys && c.Keys <= keys && d.Keys <= keys
    ensures MapSum(a) + MapSum(b) == MapSum(c) + MapSum(d)
    decreases keys
  {
    if keys != {} {
      var k :| k in keys;
      BalancedWithout(a, b, c, d, k);
      MapSumBalance(a - {k}, b - {k}, c - {k}, d - {k}, keys - {k});
      MapSumRemove(a, k);
      MapSumRemove(b, k);
      MapSumRemove(c, k);
      MapSumRemove(d, k);
      assert ValueAt(a, k) + ValueAt(b, k) == ValueAt(c, k) + ValueAt(d, k);
    }
  }

  // ---- division ----

  lemma Quotient(q: nat, r: nat, b: nat)
    requires r < b
    ensures (q * b + r) / b == q && (q * b + r) % b == r
  {
    var v := q * b + r;
    var d := v / b - q;
    assert v == b * (v / b) + v % b;
    assert d * b == r - v % b;
    FarApart(d, b);
  }

  lemma FarApart(d: int, b: nat)
    ensures d >= 1 ==> d * b >= b
    ensures d <= -1 ==> d * b + b <= 0
  {
  }

  /** Adding on both sides of a residue. */
  lemma AddToResidue(x: nat, a: nat, n: nat)
    requires n > 0
    ensures (x % n + a) % n == (x + a) % n
  {
    var q, r := (x % n + a) / n, (x % n + a) % n;
    assert x + a == (x / n + q) * n + r;
    Quotient(x / n + q, r, n);
  }
}
