/**
 * `get_denominator` of gptsenpy/utils/utils.py: the number of annotation
 * items a cleaned dictionary stands for.
 */
module Counting {
  import opened Annotations
  import opened MapSums

  /** The items one value stands for: a set counts its elements, any
      other value counts once. */
  function Units(v: Cleaned): nat
  {
    match v
    case CBool(_) => 1
    case CSet(s) => |s|
  }

  function UnitsOf(values: map<string, Cleaned>, ks: set<string>): map<string, nat>
  {
    map k | k in ks && k in values :: Units(values[k])
  }

  /** What `get_denominator` returns: the sum of `Units` over all values. */
  ghost function Denominator(values: map<string, Cleaned>): (n: nat)
    ensures n == 0 <==> forall k :: k in values ==> values[k] == CSet({})
  {
    var units := UnitsOf(values, values.Keys);
    if forall k :: k in values ==> values[k] == CSet({}) then
      SumNatZeros(units);
      SumNat(units)
    else
      var k :| k in values && values[k] != CSet({});
      SumNatRemove(units, k);
      SumNat(units)
  }

  /** `get_denominator`: accumulates the units of the values one by one. */
  method GetDenominator(values: map<string, Cleaned>) returns (n: nat)
    ensures n == Denominator(values)
  {
    n := 0;
    var todo := values.Keys;
    while todo != {}
      invariant todo <= values.Keys
      invariant n + SumNat(UnitsOf(values, todo)) == Denominator(values)
      decreases todo
    {
      var k :| k in todo;
      SumNatRemove(UnitsOf(values, todo), k);
      assert UnitsOf(values, todo) - {k} == UnitsOf(values, todo - {k});
      n := n + Units(values[k]);
      todo := todo - {k};
    }
    assert UnitsOf(values, todo) == map[];
  }

  /** Adding a new key adds the units of its value. */
  lemma DenominatorAdd(values: map<string, Cleaned>, k: string, v: Cleaned)
    requires k !in values
    ensures Denominator(values[k := v]) == Denominator(values) + Units(v)
  {
    var m := values[k := v];
    SumNatRemove(UnitsOf(m, m.Keys), k);
    assert UnitsOf(m, m.Keys) - {k} == UnitsOf(values, values.Keys);
  }

  /** The denominator of an empty dictionary is 0. */
  lemma DenominatorEmpty()
    ensures Denominator(map[]) == 0
  {
    assert UnitsOf(map[], {}) == map[];
  }

  /** The example of get_denominator's documentation: a True, a False and
      a three-element set make 1 + 1 + 3 = 5 items (the documentation
      says 4). */
  lemma DenominatorDocExample()
    ensures Denominator(map["a" := CBool(true), "b" := CBool(false),
                            "c" := CSet({StrElem("d"), StrElem("e"), StrElem("f")})]) == 5
  {
    var s := {StrElem("d"), StrElem("e"), StrElem("f")};
    assert |s| == 3;
    DenominatorEmpty();
    DenominatorAdd(map[], "a", CBool(true));
    DenominatorAdd(map["a" := CBool(true)], "b", CBool(false));
    DenominatorAdd(map["a" := CBool(true), "b" := CBool(false)], "c", CSet(s));
  }
}
