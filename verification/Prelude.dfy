/** Shared vocabulary: optional values, results, distinct sequences, and sums over finite maps. */
module Prelude {
  datatype Option<+T> = None | Some(value: T)

  datatype Result<+T> = Ok(value: T) | Err(error: string)

  ghost predicate Distinct<T>(s: seq<T>) {
    forall i, j :: 0 <= i < j < |s| ==> s[i] != s[j]
  }

  /** 1 when the condition holds, 0 otherwise. */
  function Bit(b: bool): nat {
    if b then 1 else 0
  }

  /** The sum of all values of a finite map. */
  ghost function Total<K>(m: map<K, nat>): nat
    decreases |m|
  {
    if m == map[] then 0
    else
      var k :| k in m;
      RemoveShrinks(m, k);
      m[k] + Total(m - {k})
  }

  lemma RemoveShrinks<K, V>(m: map<K, V>, k: K)
    requires k in m
    ensures |m - {k}| < |m|
  {
    assert (m - {k}).Keys == m.Keys - {k};
    assert |m.Keys| == |m|;
    assert |(m - {k}).Keys| == |m - {k}|;
  }

  lemma {:induction false} TotalSplit<K>(m: map<K, nat>, k: K)
    requires k in m
    ensures Total(m) == m[k] + Total(m - {k})
    decreases |m|
  {
    var x :| x in m && Total(m) == m[x] + Total(m - {x});
    if x != k {
      RemoveShrinks(m, x);
      RemoveShrinks(m, k);
      TotalSplit(m - {x}, k);
      TotalSplit(m - {k}, x);
      assert m - {x} - {k} == m - {k} - {x};
    }
  }

  lemma TotalUpdate<K>(m: map<K, nat>, k: K, v: nat)
    ensures k in m ==> Total(m[k := v]) + m[k] == Total(m) + v
    ensures k !in m ==> Total(m[k := v]) == Total(m) + v
  {
    TotalSplit(m[k := v], k);
    if k in m {
      TotalSplit(m, k);
      assert m[k := v] - {k} == m - {k};
    } else {
      assert m[k := v] - {k} == m;
    }
  }

  lemma {:induction false} TotalMonotone<K>(a: map<K, nat>, b: map<K, nat>)
    requires a.Keys == b.Keys
    requires forall k :: k in a ==> a[k] <= b[k]
    ensures Total(a) <= Total(b)
    decreases |a|
  {
    if a == map[] {
      assert b.Keys == {};
      assert b == map[];
    } else {
      var k :| k in a;
      TotalSplit(a, k);
      TotalSplit(b, k);
      RemoveShrinks(a, k);
      TotalMonotone(a - {k}, b - {k});
    }
  }

  lemma TotalStrict<K>(a: map<K, nat>, b: map<K, nat>, k: K)
    requires a.Keys == b.Keys
    requires forall x :: x in a ==> a[x] <= b[x]
    requires k in a && a[k] < b[k]
    ensures Total(a) < Total(b)
  {
    TotalSplit(a, k);
    TotalSplit(b, k);
    TotalMonotone(a - {k}, b - {k});
  }

  lemma {:induction false} SubsetSize<T>(a: set<T>, b: set<T>)
    requires a <= b
    ensures |a| <= |b|
    decreases |a|
  {
    if a != {} {
      var x :| x in a;
      SubsetSize(a - {x}, b - {x});
    }
  }
}
