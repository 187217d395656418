/**
 * Sums of the values of a finite map, as Python's `sum(d.values())` computes
 * them. The sum picks an arbitrary key first; `SumNatRemove` and
 * `SumRealRemove` show that the choice does not matter.
 */
module MapSums {

  /** Some key of a non-empty map. */
  ghost function Pick<K, V>(m: map<K, V>): (k: K)
    requires m != map[]
    ensures k in m
  {
    assert m.Keys != {};
    var k :| k in m.Keys; k
  }

  ghost function SumNat<K>(m: map<K, nat>): nat
    decreases |m|
  {
    if m == map[] then 0
    else
      var k := Pick(m);
      assert |m - {k}| < |m| by { assert (m - {k}).Keys == m.Keys - {k}; }
      m[k] + SumNat(m - {k})
  }

  ghost function SumReal<K>(m: map<K, real>): real
    decreases |m|
  {
    if m == map[] then 0.0
    else
      var k := Pick(m);
      assert |m - {k}| < |m| by { assert (m - {k}).Keys == m.Keys - {k}; }
      m[k] + SumReal(m - {k})
  }

  /** Taking out any key first gives the same sum. */
  lemma {:induction false} SumNatRemove<K>(m: map<K, nat>, k: K)
    requires k in m
    ensures SumNat(m) == m[k] + SumNat(m - {k})
    decreases |m|
  {
    var j := Pick(m);
    if j != k {
      assert (m - {j}).Keys == m.Keys - {j};
      assert (m - {k}).Keys == m.Keys - {k};
      SumNatRemove(m - {j}, k);
      SumNatRemove(m - {k}, j);
      assert m - {j} - {k} == m - {k} - {j};
    }
  }

  lemma {:induction false} SumRealRemove<K>(m: map<K, real>, k: K)
    requires k in m
    ensures SumReal(m) == m[k] + SumReal(m - {k})
    decreases |m|
  {
    var j := Pick(m);
    if j != k {
      assert (m - {j}).Keys == m.Keys - {j};
      assert (m - {k}).Keys == m.Keys - {k};
      SumRealRemove(m - {j}, k);
      SumRealRemove(m - {k}, j);
      assert m - {j} - {k} == m - {k} - {j};
    }
  }

  /** A sum of values in [0, 1] lies between 0 and the number of keys, and
      reaches that number exactly when every value is 1. */
  lemma {:induction false} SumRealUnitBounds<K>(m: map<K, real>)
    requires forall k :: k in m ==> 0.0 <= m[k] <= 1.0
    ensures 0.0 <= SumReal(m) <= |m| as real
    ensures SumReal(m) == |m| as real <==> forall k :: k in m ==> m[k] == 1.0
    decreases |m|
  {
    if m != map[] {
      var k := Pick(m);
      var rest := m - {k};
      assert rest.Keys == m.Keys - {k};
      assert |rest| == |m| - 1;
      assert SumReal(m) == m[k] + SumReal(rest);
      SumRealUnitBounds(rest);
      if !forall j :: j in m ==> m[j] == 1.0 {
        var j :| j in m && m[j] != 1.0;
        if j != k {
          assert j in rest;
          assert SumReal(rest) < |rest| as real;
        }
      }
    }
  }

  /** `sum(d.values())` over a map of reals, as a loop. */
  method SumRealValues<K>(m: map<K, real>) returns (s: real)
    ensures s == SumReal(m)
  {
    s := 0.0;
    var todo := m.Keys;
    assert (map k | k in todo :: m[k]) == m;
    while todo != {}
      invariant todo <= m.Keys
      invariant s + SumReal(map k | k in todo :: m[k]) == SumReal(m)
      decreases todo
    {
      var k :| k in todo;
      ghost var rest := map j | j in todo :: m[j];
      SumRealRemove(rest, k);
      assert rest - {k} == map j | j in todo - {k} :: m[j];
      s := s + m[k];
      todo := todo - {k};
    }
  }

  /** `sum(d.values())` over a map of counts, as a loop. */
  method SumNatValues<K>(m: map<K, nat>) returns (s: nat)
    ensures s == SumNat(m)
  {
    s := 0;
    var todo := m.Keys;
    assert (map k | k in todo :: m[k]) == m;
    while todo != {}
      invariant todo <= m.Keys
      invariant s + SumNat(map k | k in todo :: m[k]) == SumNat(m)
      decreases todo
    {
      var k :| k in todo;
      ghost var rest := map j | j in todo :: m[j];
      SumNatRemove(rest, k);
      assert rest - {k} == map j | j in todo - {k} :: m[j];
      s := s + m[k];
      todo := todo - {k};
    }
  }

  /** Maps with the same keys and the same value at every key are equal. */
  lemma SameMap<K, V>(l: map<K, V>, r: map<K, V>)
    requires forall j :: j in l ==> j in r && l[j] == r[j]
    requires forall j :: j in r ==> j in l
    ensures l == r
  {
  }

  /** The sum of a two-entry map. */
  lemma SumRealPair<K>(a: K, x: real, b: K, y: real)
    requires a != b
    ensures SumReal(map[a := x, b := y]) == x + y
  {
    var m := map[a := x, b := y];
    SumRealRemove(m, a);
    SameMap(m - {a}, map[b := y]);
    SumRealRemove(map[b := y], b);
    SameMap(map[b := y] - {b}, map[]);
  }

  /** The sum of a two-entry map. */
  lemma SumNatPair<K>(a: K, x: nat, b: K, y: nat)
    requires a != b
    ensures SumNat(map[a := x, b := y]) == x + y
  {
    var m := map[a := x, b := y];
    SumNatRemove(m, a);
    SameMap(m - {a}, map[b := y]);
    SumNatRemove(map[b := y], b);
    SameMap(map[b := y] - {b}, map[]);
  }

  /** The sum of a three-entry map. */
  lemma SumRealTriple<K>(a: K, x: real, b: K, y: real, c: K, z: real)
    requires a != b && a != c && b != c
    ensures SumReal(map[a := x, b := y, c := z]) == x + y + z
  {
    var m := map[a := x, b := y, c := z];
    SumRealRemove(m, c);
    SameMap(m - {c}, map[a := x, b := y]);
    SumRealPair(a, x, b, y);
  }

  /** The sum of a three-entry map. */
  lemma SumNatTriple<K>(a: K, x: nat, b: K, y: nat, c: K, z: nat)
    requires a != b && a != c && b != c
    ensures SumNat(map[a := x, b := y, c := z]) == x + y + z
  {
    var m := map[a := x, b := y, c := z];
    SumNatRemove(m, c);
    SameMap(m - {c}, map[a := x, b := y]);
    SumNatPair(a, x, b, y);
  }

  /** A map of zeros sums to zero. */
  lemma {:induction false} SumRealZeros<K>(m: map<K, real>)
    requires forall k :: k in m ==> m[k] == 0.0
    ensures SumReal(m) == 0.0
    decreases |m|
  {
    if m != map[] {
      var k := Pick(m);
      assert |m - {k}| < |m| by { assert (m - {k}).Keys == m.Keys - {k}; }
      SumRealZeros(m - {k});
    }
  }

  /** A map of zeros sums to zero. */
  lemma {:induction false} SumNatZeros<K>(m: map<K, nat>)
    requires forall k :: k in m ==> m[k] == 0
    ensures SumNat(m) == 0
    decreases |m|
  {
    if m != map[] {
      var k := Pick(m);
      assert |m - {k}| < |m| by { assert (m - {k}).Keys == m.Keys - {k}; }
      SumNatZeros(m - {k});
    }
  }
}
