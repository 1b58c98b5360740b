/** Sums over the values of a finite map. */
module Sums {

  ghost function Sum<K(!new)>(m: map<K, nat>): nat
  {
    if m == map[] then 0
    else var k :| k in m; m[k] + Sum(m - {k})
  }

  /** Any key may be split off first, whichever one the definition picked. */
  lemma {:induction false} Split<K(!new)>(m: map<K, nat>, k: K)
    requires k in m
    ensures Sum(m) == m[k] + Sum(m - {k})
    decreases |m|
  {
    var j :| j in m && Sum(m) == m[j] + Sum(m - {j});
    if j != k {
      Split(m - {j}, k);
      Split(m - {k}, j);
      assert (m - {j}) - {k} == (m - {k}) - {j};
    }
  }

  lemma Update<K(!new)>(m: map<K, nat>, k: K, v: nat)
    ensures Sum(m[k := v]) == (if k in m then Sum(m) - m[k] else Sum(m)) + v
  {
    Split(m[k := v], k);
    assert m[k := v] - {k} == m - {k};
    if k in m {
      Split(m, k);
    } else {
      assert m - {k} == m;
    }
  }

  lemma Times(b: nat, n: nat)
    ensures b * (n + 1) == b * n + b
  {
  }

  /** If every value is at least `b`, the sum is at least `b` times the number of keys. */
  lemma {:induction false} AtLeast<K(!new)>(m: map<K, nat>, b: nat)
    requires forall k :: k in m ==> b <= m[k]
    ensures b * |m| <= Sum(m)
    decreases |m|
  {
    if m != map[] {
      var k :| k in m && Sum(m) == m[k] + Sum(m - {k});
      AtLeast(m - {k}, b);
      Times(b, |m - {k}|);
      assert |m| == |m - {k}| + 1;
    }
  }

  /** If every value is at most `b`, the sum is at most `b` times the number of keys. */
  lemma {:induction false} AtMost<K(!new)>(m: map<K, nat>, b: nat)
    requires forall k :: k in m ==> m[k] <= b
    ensures Sum(m) <= b * |m|
    decreases |m|
  {
    if m != map[] {
      var k :| k in m && Sum(m) == m[k] + Sum(m - {k});
      AtMost(m - {k}, b);
      Times(b, |m - {k}|);
      assert |m| == |m - {k}| + 1;
    }
  }

  lemma {:induction false} Zero<K(!new)>(m: map<K, nat>)
    requires forall k :: k in m ==> m[k] == 0
    ensures Sum(m) == 0
    decreases |m|
  {
    if m != map[] {
      var k :| k in m && Sum(m) == m[k] + Sum(m - {k});
      Zero(m - {k});
    }
  }
}
