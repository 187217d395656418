/**
 * The duplicate-key guard of the JSON reader (gptsenpy/io/read.py): the hook
 * receives an object's key/value pairs in file order, refuses the object when
 * a key repeats, and otherwise builds the dictionary.
 */
module JsonPairs {
  import opened Annotations

  /** The set of keys among `pairs`. */
  function KeySet<V>(pairs: seq<(string, V)>): set<string>
  {
    set i | 0 <= i < |pairs| :: pairs[i].0
  }

  /** Some key occurs at two different positions. */
  predicate HasDuplicateKey<V>(pairs: seq<(string, V)>)
  {
    exists i, j :: 0 <= i < j < |pairs| && pairs[i].0 == pairs[j].0
  }

  /** Python's `dict(pairs)`: the pairs are inserted in order, so a later
      pair overwrites an earlier one with the same key. */
  function PairsToMap<V>(pairs: seq<(string, V)>): (m: map<string, V>)
    ensures m.Keys == KeySet(pairs)
    ensures pairs != [] ==> m[pairs[|pairs| - 1].0] == pairs[|pairs| - 1].1
  {
    if pairs == [] then map[]
    else
      var init := pairs[..|pairs| - 1];
      assert KeySet(pairs) == KeySet(init) + {pairs[|pairs| - 1].0} by {
        assert forall i :: 0 <= i < |init| ==> init[i] == pairs[i];
      }
      PairsToMap(init)[pairs[|pairs| - 1].0 := pairs[|pairs| - 1].1]
  }

  /** There are never more distinct keys than pairs, and there are as many
      exactly when no key repeats. */
  lemma {:induction false} KeyCount<V>(pairs: seq<(string, V)>)
    ensures |KeySet(pairs)| <= |pairs|
    ensures |KeySet(pairs)| == |pairs| <==> !HasDuplicateKey(pairs)
  {
    if pairs != [] {
      var n := |pairs| - 1;
      var init := pairs[..n];
      var last := pairs[n].0;
      assert forall i :: 0 <= i < n ==> init[i] == pairs[i];
      assert KeySet(pairs) == KeySet(init) + {last};
      KeyCount(init);
      if last in KeySet(init) {
        var i :| 0 <= i < n && init[i].0 == last;
        assert pairs[i].0 == pairs[n].0;
      } else if HasDuplicateKey(init) {
        var i, j :| 0 <= i < j < n && init[i].0 == init[j].0;
        assert pairs[i].0 == pairs[j].0;
      } else {
        forall i, j | 0 <= i < j < |pairs| ensures pairs[i].0 != pairs[j].0 {
          if j == n {
            assert pairs[i].0 == init[i].0 && init[i].0 in KeySet(init);
          } else {
            assert pairs[i] == init[i] && pairs[j] == init[j];
          }
        }
      }
    }
  }

  /** A pair is what the dictionary holds for its key unless a later
      pair reuses the key. */
  lemma {:induction false} LastWriteWins<V>(pairs: seq<(string, V)>, i: nat)
    requires i < |pairs|
    requires forall j :: i < j < |pairs| ==> pairs[j].0 != pairs[i].0
    ensures PairsToMap(pairs)[pairs[i].0] == pairs[i].1
  {
    var n := |pairs| - 1;
    if i < n {
      var init := pairs[..n];
      assert init[i] == pairs[i];
      forall j | i < j < n ensures init[j].0 != init[i].0 {
        assert init[j] == pairs[j];
      }
      LastWriteWins(init, i);
      assert pairs[n].0 != pairs[i].0;
    }
  }

  /** Without repeated keys, every pair is found in the dictionary. */
  lemma PairsToMapLookup<V>(pairs: seq<(string, V)>, i: nat)
    requires !HasDuplicateKey(pairs)
    requires i < |pairs|
    ensures PairsToMap(pairs)[pairs[i].0] == pairs[i].1
  {
    LastWriteWins(pairs, i);
  }


  /** `check_duplicate_keys`: the object is refused exactly when a key
      repeats; otherwise the dictionary holds every pair, one key per pair. */
  function CheckDuplicateKeys<V>(pairs: seq<(string, V)>): (r: Result<map<string, V>>)
    ensures r.Err? <==> HasDuplicateKey(pairs)
    ensures r.Err? ==> r.error == DuplicateKeysError
    ensures r.Ok? ==> r.value.Keys == KeySet(pairs) && |r.value| == |pairs|
    ensures r.Ok? ==> forall i :: 0 <= i < |pairs| ==> r.value[pairs[i].0] == pairs[i].1
    ensures pairs == [] ==> r == Ok(map[])
  {
    KeyCount(pairs);
    if |pairs| == |KeySet(pairs)| then
      var m := PairsToMap(pairs);
      assert |m| == |m.Keys|;
      assert forall i :: 0 <= i < |pairs| ==> m[pairs[i].0] == pairs[i].1 by {
        forall i | 0 <= i < |pairs| ensures m[pairs[i].0] == pairs[i].1 {
          PairsToMapLookup(pairs, i);
        }
      }
      Ok(m)
    else
      Err(DuplicateKeysError)
  }
}
