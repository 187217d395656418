/**
 * The annotation cleaner and merger of gptsenpy/utils/utils.py.
 *
 * `CleanValues` and `ConcatJsonResult` are the source's loops; each is
 * proved equal to a specification function (`Clean`, `Concat`), and the
 * properties the source promises are lemmas about those functions.
 * `get_denominator` is modelled in module Counting.
 */
module Utils {
  import opened Annotations
  import opened MapSums

  /** The registry of recognised annotation keys (`DEFAULT_KEY`), in
      registry order. */
  function DefaultKeys(): (keys: seq<string>)
    ensures |keys| == 63
  {
    [
      "optim-optimizer-Adadelta",
      "optim-optimizer-Adagrad",
      "optim-optimizer-Adam",
      "optim-optimizer-AdamW",
      "optim-optimizer-SparseAdam",
      "optim-optimizer-Adamax",
      "optim-optimizer-ASGD",
      "optim-optimizer-LBFGS",
      "optim-optimizer-NAdam",
      "optim-optimizer-RAdam",
      "optim-optimizer-RMSprop",
      "optim-optimizer-Rprop",
      "optim-optimizer-SGD",
      "optim-optimizer-MomentumSGD",
      "optim-optimizer-momentum",
      "optim-learningrate",
      "optim-weightdecay",
      "optim-lrscheduler-LambdaLR",
      "optim-lrscheduler-MultiplicativeLR",
      "optim-lrscheduler-StepLR",
      "optim-lrscheduler-MultiStepLR",
      "optim-lrscheduler-ConstantLR",
      "optim-lrscheduler-LinearLR",
      "optim-lrscheduler-ExponentialLR",
      "optim-lrscheduler-PolynomialLR",
      "optim-lrscheduler-CosineAnnealingLR",
      "optim-lrscheduler-ChainedScheduler",
      "optim-lrscheduler-SequentialLR",
      "optim-lrscheduler-ReduceLROnPlateau",
      "optim-lrscheduler-CyclicLR",
      "optim-lrscheduler-OneCycleLR",
      "optim-lrscheduler-CosineAnnealingWarmRestarts",
      "optim-earlystopping",
      "batchsize",
      "iterations",
      "epochs",
      "FPS",
      "runtime-train",
      "runtime-inference",
      "resource-train-gpu-V100",
      "resource-train-gpu-T4",
      "resource-train-gpu-P100",
      "resource-train-gpu-A100",
      "resource-train-gpu-M40",
      "resource-train-tpu-v3",
      "resource-train-tpu-v4",
      "resource-train-gpu-GTX1660Ti",
      "resource-train-gpu-RTX2070",
      "resource-train-gpu-RTX3080",
      "resource-train-gpu-num",
      "resource-train-gpu-memory",
      "resource-inference-gpu-V100",
      "resource-inference-gpu-T4",
      "resource-inference-gpu-P100",
      "resource-inference-gpu-A100",
      "resource-inference-gpu-M40",
      "resource-inference-tpu-v3",
      "resource-inference-tpu-v4",
      "resource-inference-gpu-GTX1660Ti",
      "resource-inference-gpu-RTX2070",
      "resource-inference-gpu-RTX3080",
      "resource-inference-gpu-num",
      "resource-inference-gpu-memory"
    ]
  }

  // ---------------------------------------------------------------------
  // clean_values
  // ---------------------------------------------------------------------

  /** A value the cleaner omits: None or False. */
  predicate Dropped(v: Raw)
  {
    v.NoneValue? || v == BoolValue(false)
  }

  /** A value the cleaner rejects with a ValueError. */
  predicate Malformed(v: Raw)
  {
    v.OtherValue?
  }

  /** The cleaned form of a value that is neither dropped nor rejected. */
  function Normalize(v: Raw): (c: Cleaned)
    requires !Dropped(v) && !Malformed(v)
    ensures c.CBool? <==> v == BoolValue(true)
    ensures c.CBool? ==> c.b
    ensures v.NumValue? ==> c == CSet({NumElem(v.x)})
    ensures v.ListValue? ==> c.CSet? && forall e :: e in c.elems <==> e in v.items
    ensures v.SetValue? ==> c == CSet(v.members)
  {
    match v
    case BoolValue(b) => CBool(b)
    case ListValue(items) => CSet(set e | e in items)
    case SetValue(members) => CSet(members)
    case NumValue(x) => CSet({NumElem(x)})
  }

  /** What `clean_values(values, keys)` returns: a ValueError if some
      listed key present in `values` holds a value of another shape;
      otherwise the listed keys present in `values` and not mapped to
      None/False, each with its cleaned value. */
  function Clean(values: map<string, Raw>, keys: seq<string>): (r: Result<map<string, Cleaned>>)
    ensures r.Err? <==> exists k :: k in keys && k in values && Malformed(values[k])
    ensures r.Err? ==> r.error == ShapeError
    ensures r.Ok? ==> forall k :: k in r.value <==> k in keys && k in values && !Dropped(values[k])
    ensures r.Ok? ==> forall k :: k in r.value ==> r.value[k] != CBool(false)
  {
    if exists k :: k in keys && k in values && Malformed(values[k]) then Err(ShapeError)
    else Ok(map k | k in keys && k in values && !Dropped(values[k]) :: Normalize(values[k]))
  }

  /** `clean_values`: walks `keys` (the registry when no key list is
      given) in order and fills the result. */
  method CleanValues(values: map<string, Raw>, keys: seq<string> := DefaultKeys()) returns (r: Result<map<string, Cleaned>>)
    ensures r == Clean(values, keys)
  {
    var ret: map<string, Cleaned> := map[];
    var i := 0;
    while i < |keys|
      invariant 0 <= i <= |keys|
      invariant forall k :: k in keys[..i] && k in values ==> !Malformed(values[k])
      invariant ret == map k | k in keys[..i] && k in values && !Dropped(values[k]) :: Normalize(values[k])
    {
      var k := keys[i];
      assert keys[..i + 1] == keys[..i] + [k];
      if k in values {
        var v := values[k];
        if v.NoneValue? || v == BoolValue(false) {
        } else if v.BoolValue? {
          ret := ret[k := CBool(v.b)];
        } else if v.ListValue? {
          ret := ret[k := CSet(set e | e in v.items)];
        } else if v.SetValue? {
          ret := ret[k := CSet(v.members)];
        } else if v.NumValue? {
          ret := ret[k := CSet({NumElem(v.x)})];
        } else {
          return Err(ShapeError);
        }
      }
      i := i + 1;
    }
    assert keys[..i] == keys;
    return Ok(ret);
  }

  /** A cleaned value fed back to the cleaner, as `concat_json_result`
      does with its accumulated dictionary. */
  function AsRaw(c: Cleaned): Raw
  {
    match c
    case CBool(b) => BoolValue(b)
    case CSet(s) => SetValue(s)
  }

  /** Cleaning is idempotent: cleaning a cleaned dictionary again with the
      same keys changes nothing. */
  lemma CleanIdempotent(values: map<string, Raw>, keys: seq<string>)
    requires Clean(values, keys).Ok?
    ensures var c := Clean(values, keys).value;
            Clean(map k | k in c :: AsRaw(c[k]), keys) == Ok(c)
  {
    var c := Clean(values, keys).value;
    var again := map k | k in c :: AsRaw(c[k]);
    CleanWellFormed(again, keys);
    var m := map k | k in keys && k in again && !Dropped(again[k]) :: Normalize(again[k]);
    forall k | k in m ensures k in c && m[k] == c[k] {
      assert c[k] != CBool(false);
    }
    SameMap(m, c);
  }

  /** A dictionary without malformed values cleans without error. */
  lemma CleanWellFormed(values: map<string, Raw>, keys: seq<string>)
    requires forall k :: k in values ==> !Malformed(values[k])
    ensures Clean(values, keys) == Ok(map k | k in keys && k in values && !Dropped(values[k]) :: Normalize(values[k]))
  {
  }

  // ---------------------------------------------------------------------
  // concat_json_result
  //
  // The specification functions take the key registry as a parameter
  // (`reg`); `ConcatJsonResult` passes `DefaultKeys()`, as the source does.
  // ---------------------------------------------------------------------

  /** What a cleaned value appends to its key's list in the accumulated
      dictionary: the boolean itself, or every member of the set. */
  function Contribution(v: Cleaned): multiset<Elem>
  {
    match v
    case CBool(b) => multiset{BoolElem(b)}
    case CSet(s) => multiset(s)
  }

  /** The accumulated list of k, empty before k is first seen. */
  function Lookup(acc: map<string, multiset<Elem>>, k: string): multiset<Elem>
  {
    if k in acc then acc[k] else multiset{}
  }

  /** The accumulated lists after one more cleaned dictionary is appended
      (`setdefault(k, [])` followed by `+=`), each list as a multiset. */
  function Append(acc: map<string, multiset<Elem>>, c: map<string, Cleaned>): (r: map<string, multiset<Elem>>)
    ensures r.Keys == acc.Keys + c.Keys
  {
    acc + Extended(acc, c)
  }

  /** The lists of c's keys once c's contributions are added to them. */
  function Extended(acc: map<string, multiset<Elem>>, c: map<string, Cleaned>): map<string, multiset<Elem>>
  {
    map k | k in c :: Lookup(acc, k) + Contribution(c[k])
  }

  /** Every input dictionary passes the cleaner. */
  predicate WellShaped(results: seq<map<string, Raw>>, reg: seq<string>)
  {
    forall i :: 0 <= i < |results| ==> Clean(results[i], reg).Ok?
  }

  /** The i-th input dictionary, cleaned. */
  function CleanedAt(results: seq<map<string, Raw>>, reg: seq<string>, i: nat): map<string, Cleaned>
    requires WellShaped(results, reg) && i < |results|
  {
    Clean(results[i], reg).value
  }

  /** The accumulated dictionary after the first loop of
      `concat_json_result`, each list taken as a multiset. */
  function Observations(results: seq<map<string, Raw>>, reg: seq<string>): (obs: map<string, multiset<Elem>>)
    requires WellShaped(results, reg)
    ensures forall k :: k in obs ==> k in reg
  {
    if results == [] then map[]
    else
      var n := |results| - 1;
      assert WellShaped(results[..n], reg) by {
        assert forall i :: 0 <= i < n ==> results[..n][i] == results[i];
      }
      Append(Observations(results[..n], reg), CleanedAt(results, reg, n))
  }

  /** Some input has key k after cleaning. */
  ghost predicate Observed(results: seq<map<string, Raw>>, reg: seq<string>, k: string)
    requires WellShaped(results, reg)
  {
    exists i :: 0 <= i < |results| && k in CleanedAt(results, reg, i)
  }

  /** Some input contributes element e to key k after cleaning. */
  ghost predicate ObservedElem(results: seq<map<string, Raw>>, reg: seq<string>, k: string, e: Elem)
    requires WellShaped(results, reg)
  {
    exists i :: 0 <= i < |results| && k in CleanedAt(results, reg, i)
                && e in Contribution(CleanedAt(results, reg, i)[k])
  }

  /** A prefix of well-shaped inputs is well shaped and cleaned the same. */
  lemma PrefixCleaned(results: seq<map<string, Raw>>, reg: seq<string>, n: nat)
    requires WellShaped(results, reg) && n <= |results|
    ensures WellShaped(results[..n], reg)
    ensures forall i :: 0 <= i < n ==> CleanedAt(results[..n], reg, i) == CleanedAt(results, reg, i)
  {
    assert forall i :: 0 <= i < n ==> results[..n][i] == results[i];
  }

  /** With one more input, the keys observed are the earlier ones plus the
      keys of the new input. */
  lemma ObservedSnoc(results: seq<map<string, Raw>>, reg: seq<string>, k: string)
    requires WellShaped(results, reg) && results != []
    ensures WellShaped(results[..|results| - 1], reg)
    ensures Observed(results, reg, k) <==>
              Observed(results[..|results| - 1], reg, k) || k in CleanedAt(results, reg, |results| - 1)
  {
    var n := |results| - 1;
    var init := results[..n];
    PrefixCleaned(results, reg, n);
    if Observed(results, reg, k) {
      var i :| 0 <= i < |results| && k in CleanedAt(results, reg, i);
      if i < n {
        assert k in CleanedAt(init, reg, i);
      }
    }
    if Observed(init, reg, k) {
      var i :| 0 <= i < n && k in CleanedAt(init, reg, i);
      assert k in CleanedAt(results, reg, i);
    }
  }

  /** With one more input, the elements observed under k are the earlier
      ones plus what the new input contributes. */
  lemma ObservedElemSnoc(results: seq<map<string, Raw>>, reg: seq<string>, k: string, e: Elem)
    requires WellShaped(results, reg) && results != []
    ensures WellShaped(results[..|results| - 1], reg)
    ensures var c := CleanedAt(results, reg, |results| - 1);
            ObservedElem(results, reg, k, e) <==>
              ObservedElem(results[..|results| - 1], reg, k, e) || (k in c && e in Contribution(c[k]))
  {
    PrefixCleaned(results, reg, |results| - 1);
    ObservedElemEarlier(results, reg, k, e);
    ObservedElemLater(results, reg, k, e);
  }

  /** An element observed among all but the last input is observed among
      all of them. */
  lemma ObservedElemEarlier(results: seq<map<string, Raw>>, reg: seq<string>, k: string, e: Elem)
    requires WellShaped(results, reg) && results != []
    requires WellShaped(results[..|results| - 1], reg)
    ensures ObservedElem(results[..|results| - 1], reg, k, e) ==> ObservedElem(results, reg, k, e)
  {
    var init := results[..|results| - 1];
    if ObservedElem(init, reg, k, e) {
      var i :| 0 <= i < |init| && k in CleanedAt(init, reg, i) && e in Contribution(CleanedAt(init, reg, i)[k]);
      assert init[i] == results[i];
      assert CleanedAt(init, reg, i) == CleanedAt(results, reg, i);
    }
  }

  /** An element observed among all inputs comes from the earlier ones or
      from the last. */
  lemma ObservedElemLater(results: seq<map<string, Raw>>, reg: seq<string>, k: string, e: Elem)
    requires WellShaped(results, reg) && results != []
    requires WellShaped(results[..|results| - 1], reg)
    ensures var c := CleanedAt(results, reg, |results| - 1);
            ObservedElem(results, reg, k, e) ==>
              ObservedElem(results[..|results| - 1], reg, k, e) || (k in c && e in Contribution(c[k]))
  {
    var n := |results| - 1;
    var init := results[..n];
    if ObservedElem(results, reg, k, e) {
      var i :| 0 <= i < |results| && k in CleanedAt(results, reg, i)
               && e in Contribution(CleanedAt(results, reg, i)[k]);
      if i < n {
        assert init[i] == results[i];
        assert CleanedAt(init, reg, i) == CleanedAt(results, reg, i);
      }
    }
  }

  /** The accumulated dictionary has a key exactly when some input has it
      after cleaning, and holds an element under that key exactly when some
      input contributed it. */
  lemma {:induction false} ObservationsSpec(results: seq<map<string, Raw>>, reg: seq<string>, k: string, e: Elem)
    requires WellShaped(results, reg)
    ensures k in Observations(results, reg) <==> Observed(results, reg, k)
    ensures e in Lookup(Observations(results, reg), k) <==> ObservedElem(results, reg, k, e)
  {
    if results != [] {
      var n := |results| - 1;
      var init := results[..n];
      ObservedSnoc(results, reg, k);
      ObservedElemSnoc(results, reg, k, e);
      ObservationsSpec(init, reg, k, e);
      var before := Observations(init, reg);
      var c := CleanedAt(results, reg, n);
      assert Observations(results, reg) == Append(before, c);
      assert Lookup(Append(before, c), k) == Lookup(before, k) + (if k in c then Contribution(c[k]) else multiset{});
    }
  }

  /** The values of a multiset that occur as often as any other (ties
      are all kept). */
  function Modes(m: multiset<Elem>): (modes: set<Elem>)
    ensures forall e :: e in modes ==> e in m
    ensures m != multiset{} ==> modes != {}
  {
    var modes := set e | e in m && forall e' :: e' in m ==> m[e'] <= m[e];
    if m != multiset{} then
      MostFrequentExists(m);
      var e :| e in m && forall e' :: e' in m ==> m[e'] <= m[e];
      assert e in modes;
      modes
    else
      modes
  }

  /** Some member of a non-empty set is at least as frequent in m as every
      other member. */
  lemma {:induction false} MostFrequentIn(m: multiset<Elem>, s: set<Elem>) returns (e: Elem)
    requires s != {}
    ensures e in s && forall e' :: e' in s ==> m[e'] <= m[e]
    decreases s
  {
    var x :| x in s;
    if s == {x} {
      e := x;
    } else {
      var y := MostFrequentIn(m, s - {x});
      e := if m[x] <= m[y] then y else x;
    }
  }

  /** A non-empty multiset has a value at least as frequent as every other. */
  lemma MostFrequentExists(m: multiset<Elem>)
    requires m != multiset{}
    ensures exists e :: e in m && forall e' :: e' in m ==> m[e'] <= m[e]
  {
    var x :| x in m;
    var support := set y | y in m;
    assert x in support;
    var e := MostFrequentIn(m, support);
  }

  /** The union vote: every observed value is kept. */
  function UnionVote(obs: map<string, multiset<Elem>>): map<string, Cleaned>
  {
    map k | k in obs :: CSet(set e | e in obs[k])
  }

  /** The majority vote: only the most frequent values are kept. */
  function MajorityVote(obs: map<string, multiset<Elem>>): map<string, Cleaned>
  {
    map k | k in obs :: CSet(Modes(obs[k]))
  }

  /** A set holding True is replaced by the boolean True. */
  function PromoteValue(v: Cleaned): Cleaned
  {
    if v.CSet? && BoolElem(true) in v.elems then CBool(true) else v
  }

  /** The closing loop of `concat_json_result` over the whole dictionary. */
  function Promote(m: map<string, Cleaned>): (r: map<string, Cleaned>)
    ensures r.Keys == m.Keys
    ensures forall k :: k in r ==>
              (r[k] == CBool(true) <==> m[k] == CBool(true) || (m[k].CSet? && BoolElem(true) in m[k].elems))
    ensures forall k :: k in r && r[k] != CBool(true) ==> r[k] == m[k]
  {
    map k | k in m :: PromoteValue(m[k])
  }

  /** The voting step on the accumulated observations. */
  function VoteOn(obs: map<string, multiset<Elem>>, option: string): (r: Result<map<string, Cleaned>>)
    ensures r.Err? && r.error.VoteOptionError? ==> r.error.option == option
    ensures option != "union" && option != "majority_vote" ==> r == Err(VoteOptionError(option))
    ensures r.Ok? ==> r.value.Keys == obs.Keys
    ensures r.Ok? ==> option == "union" || option == "majority_vote"
  {
    if option == "union" then Ok(Promote(UnionVote(obs)))
    else if option == "majority_vote" then
      if exists k :: k in obs && obs[k] == multiset{} then Err(EmptyCountError)
      else Ok(Promote(MajorityVote(obs)))
    else Err(VoteOptionError(option))
  }

  /** What `concat_json_result(results, option)` returns when the inputs
      are cleaned against `reg`. A malformed input fails first (the cleaner
      runs in the first loop); then the option decides; under
      "majority_vote" an empty accumulated list fails as `max` of nothing
      does. */
  function Concat(results: seq<map<string, Raw>>, option: string, reg: seq<string>): (r: Result<map<string, Cleaned>>)
    ensures r.Err? && r.error.VoteOptionError? ==> r.error.option == option
    ensures r.Ok? ==> WellShaped(results, reg) && r.value.Keys == Observations(results, reg).Keys
    ensures r.Ok? ==> option == "union" || option == "majority_vote"
  {
    if !WellShaped(results, reg) then Err(ShapeError)
    else VoteOn(Observations(results, reg), option)
  }

  /** An unsupported option is refused whatever the inputs, even none. */
  lemma ConcatRejectsUnknownOption(results: seq<map<string, Raw>>, option: string, reg: seq<string>)
    requires option != "union" && option != "majority_vote"
    ensures Concat(results, option, reg).Err?
    ensures WellShaped(results, reg) ==> Concat(results, option, reg) == Err(VoteOptionError(option))
    ensures Concat([], option, reg) == Err(VoteOptionError(option))
  {
  }

  /** Under "union" the result has the keys some cleaned input has; each
      value is True when some input contributed True, and otherwise the
      set of every element any input contributed. */
  lemma ConcatUnionSpec(results: seq<map<string, Raw>>, reg: seq<string>, k: string)
    requires WellShaped(results, reg)
    ensures var r := Concat(results, "union", reg);
            && r.Ok?
            && (k in r.value <==> Observed(results, reg, k))
            && (k in r.value ==>
                  && (r.value[k] == CBool(true) <==> ObservedElem(results, reg, k, BoolElem(true)))
                  && (r.value[k].CSet? ==> forall e :: e in r.value[k].elems <==> ObservedElem(results, reg, k, e)))
  {
    var obs := Observations(results, reg);
    ObservationsSpec(results, reg, k, BoolElem(true));
    if k in obs {
      forall e ensures e in obs[k] <==> ObservedElem(results, reg, k, e) {
        ObservationsSpec(results, reg, k, e);
      }
    }
  }

  /** Two input lists holding the same dictionaries are both well shaped
      or both not. */
  lemma SameShape(xs: seq<map<string, Raw>>, ys: seq<map<string, Raw>>, reg: seq<string>)
    requires forall d :: d in xs <==> d in ys
    requires WellShaped(ys, reg)
    ensures WellShaped(xs, reg)
  {
    forall i | 0 <= i < |xs| ensures Clean(xs[i], reg).Ok? {
      assert xs[i] in ys;
      var j :| 0 <= j < |ys| && ys[j] == xs[i];
    }
  }

  /** Two input lists holding the same dictionaries observe the same. */
  lemma SameObserved(xs: seq<map<string, Raw>>, ys: seq<map<string, Raw>>, reg: seq<string>, k: string, e: Elem)
    requires forall d :: d in xs <==> d in ys
    requires WellShaped(xs, reg) && WellShaped(ys, reg)
    ensures Observed(xs, reg, k) <==> Observed(ys, reg, k)
    ensures ObservedElem(xs, reg, k, e) <==> ObservedElem(ys, reg, k, e)
  {
    forall i | 0 <= i < |xs| ensures exists j :: 0 <= j < |ys| && CleanedAt(ys, reg, j) == CleanedAt(xs, reg, i) {
      assert xs[i] in ys;
      var j :| 0 <= j < |ys| && ys[j] == xs[i];
      assert CleanedAt(ys, reg, j) == CleanedAt(xs, reg, i);
    }
    forall j | 0 <= j < |ys| ensures exists i :: 0 <= i < |xs| && CleanedAt(xs, reg, i) == CleanedAt(ys, reg, j) {
      assert ys[j] in xs;
      var i :| 0 <= i < |xs| && xs[i] == ys[j];
      assert CleanedAt(xs, reg, i) == CleanedAt(ys, reg, j);
    }
  }

  /** Inputs holding the same dictionaries accumulate the same keys and
      the same elements under each key. */
  lemma SameObservationsAt(xs: seq<map<string, Raw>>, ys: seq<map<string, Raw>>, reg: seq<string>, k: string, e: Elem)
    requires forall d :: d in xs <==> d in ys
    requires WellShaped(xs, reg) && WellShaped(ys, reg)
    ensures k in Observations(xs, reg) <==> k in Observations(ys, reg)
    ensures e in Lookup(Observations(xs, reg), k) <==> e in Lookup(Observations(ys, reg), k)
  {
    ObservationsSpec(xs, reg, k, e);
    ObservationsSpec(ys, reg, k, e);
    SameObserved(xs, ys, reg, k, e);
  }

  /** Under "union" the order of the inputs, and repeated inputs, do not
      matter: only which dictionaries occur counts. */
  lemma ConcatUnionOrderFree(xs: seq<map<string, Raw>>, ys: seq<map<string, Raw>>, reg: seq<string>)
    requires forall d :: d in xs <==> d in ys
    ensures Concat(xs, "union", reg) == Concat(ys, "union", reg)
  {
    if WellShaped(xs, reg) && WellShaped(ys, reg) {
      var ox := Observations(xs, reg);
      var oy := Observations(ys, reg);
      forall k ensures (k in ox <==> k in oy) && (forall e :: e in Lookup(ox, k) <==> e in Lookup(oy, k)) {
        SameObservationsAt(xs, ys, reg, k, BoolElem(true));
        forall e ensures e in Lookup(ox, k) <==> e in Lookup(oy, k) {
          SameObservationsAt(xs, ys, reg, k, e);
        }
      }
      SameSupportSameUnion(ox, oy);
    } else {
      if WellShaped(ys, reg) {
        SameShape(xs, ys, reg);
      }
      if WellShaped(xs, reg) {
        SameShape(ys, xs, reg);
      }
    }
  }

  /** The union vote sees only which elements were observed, not how often. */
  lemma SameSupportSameUnion(ox: map<string, multiset<Elem>>, oy: map<string, multiset<Elem>>)
    requires forall k :: (k in ox <==> k in oy) && (forall e :: e in Lookup(ox, k) <==> e in Lookup(oy, k))
    ensures UnionVote(ox) == UnionVote(oy)
  {
    var ux := UnionVote(ox);
    var uy := UnionVote(oy);
    assert ux.Keys == uy.Keys;
    forall k | k in ux ensures ux[k] == uy[k] {
      assert forall e :: e in ox[k] <==> e in Lookup(ox, k);
      assert forall e :: e in oy[k] <==> e in Lookup(oy, k);
    }
  }

  /** The positions of the inputs that contribute e under k after
      cleaning: the number of votes e gets under k. */
  ghost function Reporters(results: seq<map<string, Raw>>, reg: seq<string>, k: string, e: Elem): set<nat>
    requires WellShaped(results, reg)
  {
    set i: nat | i < |results| && Reports(results, reg, k, e, i)
  }

  /** Input i contributes e under k after cleaning. */
  ghost predicate Reports(results: seq<map<string, Raw>>, reg: seq<string>, k: string, e: Elem, i: nat)
    requires WellShaped(results, reg) && i < |results|
  {
    k in CleanedAt(results, reg, i) && e in Contribution(CleanedAt(results, reg, i)[k])
  }

  /** e is reported under k by some input, and no value is reported under k
      by more inputs. */
  ghost predicate MajorityOf(results: seq<map<string, Raw>>, reg: seq<string>, k: string, e: Elem)
    requires WellShaped(results, reg)
  {
    && Reporters(results, reg, k, e) != {}
    && forall e' :: |Reporters(results, reg, k, e')| <= |Reporters(results, reg, k, e)|
  }

  /** One cleaned value contributes an element at most once. */
  lemma ContributionOnce(v: Cleaned, e: Elem)
    ensures Contribution(v)[e] == if e in Contribution(v) then 1 else 0
  {
  }

  /** With one more input, the reporters of e under k are the earlier ones,
      plus the new position when the new input contributes e. */
  lemma ReportersSplit(results: seq<map<string, Raw>>, reg: seq<string>, k: string, e: Elem)
    requires WellShaped(results, reg) && results != []
    ensures WellShaped(results[..|results| - 1], reg)
    ensures var n := |results| - 1;
            && n !in Reporters(results[..n], reg, k, e)
            && Reporters(results, reg, k, e)
                 == Reporters(results[..n], reg, k, e) + (if Reports(results, reg, k, e, n) then {n} else {})
  {
    var n := |results| - 1;
    PrefixReports(results, reg, k, e);
    var before := Reporters(results[..n], reg, k, e);
    var after := Reporters(results, reg, k, e);
    if Reports(results, reg, k, e, n) {
      assert after == before + {n};
    } else {
      assert after == before;
    }
  }

  /** An input reports the same values whether it is taken among all the
      inputs or among all but the last. */
  lemma PrefixReports(results: seq<map<string, Raw>>, reg: seq<string>, k: string, e: Elem)
    requires WellShaped(results, reg) && results != []
    ensures WellShaped(results[..|results| - 1], reg)
    ensures forall i: nat :: i < |results| - 1 ==>
              Reports(results[..|results| - 1], reg, k, e, i) == Reports(results, reg, k, e, i)
  {
    var n := |results| - 1;
    var init := results[..n];
    PrefixCleaned(results, reg, n);
    forall i: nat | i < n ensures Reports(init, reg, k, e, i) == Reports(results, reg, k, e, i) {
      assert CleanedAt(init, reg, i) == CleanedAt(results, reg, i);
    }
  }

  /** With one more input, e gets one more vote under k exactly when the
      new input contributes e there. */
  lemma ReportersSnoc(results: seq<map<string, Raw>>, reg: seq<string>, k: string, e: Elem)
    requires WellShaped(results, reg) && results != []
    ensures WellShaped(results[..|results| - 1], reg)
    ensures var n := |results| - 1;
            var c := CleanedAt(results, reg, n);
            |Reporters(results, reg, k, e)|
              == |Reporters(results[..n], reg, k, e)| + (if k in c && e in Contribution(c[k]) then 1 else 0)
  {
    ReportersSplit(results, reg, k, e);
  }

  /** The accumulated list of k holds e once for every input that
      contributed e under k: its count is the number of votes e gets. */
  lemma {:induction false} ObservationsCount(results: seq<map<string, Raw>>, reg: seq<string>, k: string, e: Elem)
    requires WellShaped(results, reg)
    ensures Lookup(Observations(results, reg), k)[e] == |Reporters(results, reg, k, e)|
  {
    if results == [] {
      assert Reporters(results, reg, k, e) == {};
    } else {
      var n := |results| - 1;
      var init := results[..n];
      ReportersSnoc(results, reg, k, e);
      ObservationsCount(init, reg, k, e);
      var before := Observations(init, reg);
      var c := CleanedAt(results, reg, n);
      assert Observations(results, reg) == Append(before, c);
      assert Lookup(Append(before, c), k) == Lookup(before, k) + (if k in c then Contribution(c[k]) else multiset{});
      if k in c {
        ContributionOnce(c[k], e);
      }
    }
  }

  /** A value is a mode of the accumulated list of k exactly when it is a
      majority of the inputs' reports under k. */
  lemma ModesAreMajorities(results: seq<map<string, Raw>>, reg: seq<string>, k: string, e: Elem)
    requires WellShaped(results, reg)
    ensures e in Modes(Lookup(Observations(results, reg), k)) <==> MajorityOf(results, reg, k, e)
  {
    if e in Modes(Lookup(Observations(results, reg), k)) {
      ModeIsMajority(results, reg, k, e);
    }
    if MajorityOf(results, reg, k, e) {
      MajorityIsMode(results, reg, k, e);
    }
  }

  lemma ModeIsMajority(results: seq<map<string, Raw>>, reg: seq<string>, k: string, e: Elem)
    requires WellShaped(results, reg)
    requires e in Modes(Lookup(Observations(results, reg), k))
    ensures MajorityOf(results, reg, k, e)
  {
    var m := Lookup(Observations(results, reg), k);
    ObservationsCount(results, reg, k, e);
    forall e' ensures |Reporters(results, reg, k, e')| <= |Reporters(results, reg, k, e)| {
      ObservationsCount(results, reg, k, e');
      if e' in m {
      }
    }
  }

  lemma MajorityIsMode(results: seq<map<string, Raw>>, reg: seq<string>, k: string, e: Elem)
    requires WellShaped(results, reg)
    requires MajorityOf(results, reg, k, e)
    ensures e in Modes(Lookup(Observations(results, reg), k))
  {
    var m := Lookup(Observations(results, reg), k);
    ObservationsCount(results, reg, k, e);
    forall e' | e' in m ensures m[e'] <= m[e] {
      ObservationsCount(results, reg, k, e');
    }
  }


  /** Under "majority_vote" the result has the keys some cleaned input has;
      under each, the values kept are exactly those reported by the most
      inputs, ties included, and the value is True exactly when True is
      one of them. */
  lemma ConcatMajoritySpec(results: seq<map<string, Raw>>, reg: seq<string>, k: string)
    requires Concat(results, "majority_vote", reg).Ok?
    ensures var r := Concat(results, "majority_vote", reg).value;
            && (k in r <==> Observed(results, reg, k))
            && (k in r ==>
                  && (r[k] == CBool(true) <==> MajorityOf(results, reg, k, BoolElem(true)))
                  && (r[k].CSet? ==> forall e :: e in r[k].elems <==> MajorityOf(results, reg, k, e)))
  {
    var obs := Observations(results, reg);
    ObservationsSpec(results, reg, k, BoolElem(true));
    if k in obs {
      assert Lookup(obs, k) == obs[k];
      ModesAreMajorities(results, reg, k, BoolElem(true));
      forall e ensures e in Modes(obs[k]) <==> MajorityOf(results, reg, k, e) {
        ModesAreMajorities(results, reg, k, e);
      }
    }
  }

  /** "majority_vote" fails exactly when some key was seen but no input
      contributed any value to it (every input held `[]` there), and then
      with the error of `max` of nothing. */
  lemma ConcatMajorityEmpty(results: seq<map<string, Raw>>, reg: seq<string>)
    requires WellShaped(results, reg)
    ensures var r := Concat(results, "majority_vote", reg);
            && (r.Err? <==> exists k :: Observed(results, reg, k) && forall e :: !ObservedElem(results, reg, k, e))
            && (r.Err? ==> r.error == EmptyCountError)
  {
    var obs := Observations(results, reg);
    assert Concat(results, "majority_vote", reg) == VoteOn(obs, "majority_vote");
    if exists k :: k in obs && obs[k] == multiset{} {
      var k :| k in obs && obs[k] == multiset{};
      EmptyListUnreported(results, reg, k);
    } else {
      forall k | Observed(results, reg, k) ensures exists e :: ObservedElem(results, reg, k, e) {
        EmptyListUnreported(results, reg, k);
      }
    }
  }

  /** A key's accumulated list is empty exactly when the key was seen but
      no input contributed a value under it. */
  lemma EmptyListUnreported(results: seq<map<string, Raw>>, reg: seq<string>, k: string)
    requires WellShaped(results, reg)
    ensures var obs := Observations(results, reg);
            (k in obs && obs[k] == multiset{})
              <==> (Observed(results, reg, k) && forall e :: !ObservedElem(results, reg, k, e))
  {
    var obs := Observations(results, reg);
    ObservationsSpec(results, reg, k, BoolElem(true));
    if k in obs && obs[k] == multiset{} {
      forall e ensures !ObservedElem(results, reg, k, e) {
        ObservationsSpec(results, reg, k, e);
      }
    } else if k in obs {
      var x :| x in obs[k];
      ObservationsSpec(results, reg, k, x);
    }
  }

  /** The majority vote never invents a value and never loses a key: it
      keeps the union's keys, its sets are non-empty, they are subsets of
      the union's sets, and it yields True only where the union does. */
  lemma MajorityWithinUnion(results: seq<map<string, Raw>>, reg: seq<string>)
    requires Concat(results, "majority_vote", reg).Ok?
    ensures Concat(results, "union", reg).Ok?
    ensures var maj := Concat(results, "majority_vote", reg).value;
            var uni := Concat(results, "union", reg).value;
            && maj.Keys == uni.Keys
            && forall k :: k in maj ==>
                 && (maj[k] == CBool(true) ==> uni[k] == CBool(true))
                 && (maj[k].CSet? ==> maj[k].elems != {})
                 && (maj[k].CSet? && uni[k].CSet? ==> maj[k].elems <= uni[k].elems)
  {
    var obs := Observations(results, reg);
    var maj := Concat(results, "majority_vote", reg).value;
    var uni := Concat(results, "union", reg).value;
    forall k | k in maj
      ensures maj[k] == CBool(true) ==> uni[k] == CBool(true)
      ensures maj[k].CSet? ==> maj[k].elems != {}
      ensures maj[k].CSet? && uni[k].CSet? ==> maj[k].elems <= uni[k].elems
    {
      assert maj[k] == PromoteValue(CSet(Modes(obs[k])));
      assert uni[k] == PromoteValue(CSet(set e | e in obs[k]));
    }
  }

  /** `list(v)` for a set: its members, each once, in some order. */
  method SetToList(s: set<Elem>) returns (xs: seq<Elem>)
    ensures multiset(xs) == multiset(s)
  {
    xs := [];
    var todo := s;
    while todo != {}
      invariant todo <= s
      invariant multiset(xs) + multiset(todo) == multiset(s)
      decreases todo
    {
      var e :| e in todo;
      assert multiset(todo) == multiset(todo - {e}) + multiset{e};
      xs := xs + [e];
      todo := todo - {e};
    }
  }

  /** Given the largest count of a multiset, its modes are the values
      having that count. */
  lemma ModesAtMax(m: multiset<Elem>, top: nat)
    requires forall e :: e in m ==> m[e] <= top
    requires exists e :: e in m && m[e] == top
    ensures forall e :: e in Modes(m) <==> e in m && m[e] == top
  {
  }

  /** `max(cnt.values())` for `cnt = Counter(xs)`. */
  method MaxCount(xs: seq<Elem>, cnt: multiset<Elem>) returns (top: nat)
    requires xs != [] && cnt == multiset(xs)
    ensures forall e :: e in cnt ==> cnt[e] <= top
    ensures exists e :: e in cnt && cnt[e] == top
  {
    top := cnt[xs[0]];
    ghost var w := 0;
    var i := 1;
    while i < |xs|
      invariant 1 <= i <= |xs|
      invariant forall j :: 0 <= j < i ==> cnt[xs[j]] <= top
      invariant 0 <= w < i && cnt[xs[w]] == top
    {
      if cnt[xs[i]] > top {
        top := cnt[xs[i]];
        w := i;
      }
      i := i + 1;
    }
    forall e | e in cnt ensures cnt[e] <= top {
      var j :| 0 <= j < |xs| && xs[j] == e;
    }
    assert xs[w] in cnt;
  }

  /** The values of xs whose count is top. */
  method ValuesWithCount(xs: seq<Elem>, cnt: multiset<Elem>, top: nat) returns (found: set<Elem>)
    ensures forall e :: e in found <==> e in xs && cnt[e] == top
  {
    found := {};
    var i := 0;
    while i < |xs|
      invariant 0 <= i <= |xs|
      invariant forall e :: e in found <==> e in xs[..i] && cnt[e] == top
    {
      assert xs[..i + 1] == xs[..i] + [xs[i]];
      if cnt[xs[i]] == top {
        found := found + {xs[i]};
      }
      i := i + 1;
    }
    assert xs[..i] == xs;
  }

  /** `Counter(value)`, `max(cnt.values())` and the values reaching that
      count. */
  method MostCommon(xs: seq<Elem>) returns (modes: set<Elem>)
    requires xs != []
    ensures modes == Modes(multiset(xs))
  {
    var cnt := multiset(xs);
    var top := MaxCount(xs, cnt);
    ModesAtMax(cnt, top);
    modes := ValuesWithCount(xs, cnt, top);
    assert forall e :: e in xs <==> e in cnt;
  }

  /** What one cleaned value adds to its key's list: the value itself
      when it is a flag, its elements when it is a set. */
  method ContributionList(v: Cleaned) returns (piece: seq<Elem>)
    ensures multiset(piece) == Contribution(v)
  {
    if v.CBool? {
      piece := [BoolElem(v.b)];
    } else {
      piece := SetToList(v.elems);
    }
  }

  /** The accumulated lists, each taken as a multiset. */
  function AsBags(d: map<string, seq<Elem>>): (r: map<string, multiset<Elem>>)
    ensures r.Keys == d.Keys
  {
    map k | k in d :: multiset(d[k])
  }

  /** Lists replaced at one key are bags replaced at that key. */
  lemma AsBagsUpdate(d: map<string, seq<Elem>>, k: string, s: seq<Elem>)
    ensures AsBags(d[k := s]) == AsBags(d)[k := multiset(s)]
  {
  }

  /** Adding one more key to the cleaned dictionary extends that key alone. */
  lemma ExtendedUpdate(acc: map<string, multiset<Elem>>, c: map<string, Cleaned>, k: string, v: Cleaned)
    ensures Extended(acc, c[k := v]) == Extended(acc, c)[k := Lookup(acc, k) + Contribution(v)]
  {
    var l := Extended(acc, c[k := v]);
    var r := Extended(acc, c)[k := Lookup(acc, k) + Contribution(v)];
    forall j | j in l ensures j in r && l[j] == r[j] {
      if j != k {
        assert c[k := v][j] == c[j];
      }
    }
    SameMap(l, r);
  }

  /** Overriding one key on the right of a map merge overrides it in the merge. */
  lemma MergeUpdate(a: map<string, multiset<Elem>>, b: map<string, multiset<Elem>>, k: string, x: multiset<Elem>)
    ensures a + b[k := x] == (a + b)[k := x]
  {
  }

  /** Appending one more key's contribution changes only that key. */
  lemma AppendUpdate(acc: map<string, multiset<Elem>>, c: map<string, Cleaned>, k: string, v: Cleaned)
    ensures Append(acc, c[k := v]) == Append(acc, c)[k := Lookup(acc, k) + Contribution(v)]
  {
    ExtendedUpdate(acc, c, k, v);
    MergeUpdate(acc, Extended(acc, c), k, Lookup(acc, k) + Contribution(v));
  }

  /** Keys the cleaned dictionary lacks keep their accumulated elements. */
  lemma PreviousBag(d: map<string, seq<Elem>>, acc: map<string, multiset<Elem>>, c: map<string, Cleaned>, k: string)
    requires k !in c
    requires AsBags(d) == Append(acc, c)
    ensures multiset(if k in d then d[k] else []) == Lookup(acc, k)
  {
    if k in d {
      assert multiset(d[k]) == AsBags(d)[k];
    } else {
      assert k !in acc;
    }
  }

  /** Taking a key off the to-do set adds it to what is done. */
  lemma RemoveFromTodo(c: map<string, Cleaned>, todo: set<string>, k: string)
    requires k in c
    ensures c - (todo - {k}) == (c - todo)[k := c[k]]
  {
  }

  /** Appending nothing leaves the accumulation as it is. */
  lemma AppendNothing(acc: map<string, multiset<Elem>>, c: map<string, Cleaned>)
    ensures Append(acc, c - c.Keys) == acc
  {
    assert c - c.Keys == map[];
  }

  /** One step of the inner loop: appending the contribution of key k to
      its list appends k's part of the cleaned dictionary. */
  lemma AppendOne(d: map<string, seq<Elem>>, acc: map<string, multiset<Elem>>, c: map<string, Cleaned>,
                  todo: set<string>, k: string, piece: seq<Elem>)
    requires k in c && k in todo
    requires AsBags(d) == Append(acc, c - todo)
    requires multiset(piece) == Contribution(c[k])
    ensures AsBags(d[k := (if k in d then d[k] else []) + piece]) == Append(acc, c - (todo - {k}))
  {
    var before := c - todo;
    var prev := if k in d then d[k] else [];
    RemoveFromTodo(c, todo, k);
    PreviousBag(d, acc, before, k);
    AsBagsUpdate(d, k, prev + piece);
    AppendUpdate(acc, before, k, c[k]);
    assert multiset(prev + piece) == Lookup(acc, k) + Contribution(c[k]);
  }

  /** A list cleans to the set of the elements of its multiset. */
  lemma ListElements(xs: seq<Elem>)
    ensures Normalize(ListValue(xs)) == CSet(set e | e in multiset(xs))
  {
    var l := set e | e in xs;
    var r := set e | e in multiset(xs);
    assert forall e :: e in l <==> e in r;
  }

  /** The "union" branch cleans the accumulated lists once more against
      the registry; since every accumulated key is registered, this keeps
      every key and turns each list into the set of its elements. */
  lemma UnionViaClean(unionDict: map<string, seq<Elem>>, reg: seq<string>)
    requires forall k :: k in unionDict ==> k in reg
    ensures Clean(map k | k in unionDict :: ListValue(unionDict[k]), reg) == Ok(UnionVote(AsBags(unionDict)))
  {
    var raw := map k | k in unionDict :: ListValue(unionDict[k]);
    var m := map k | k in reg && k in raw && !Dropped(raw[k]) :: Normalize(raw[k]);
    CleanWellFormed(raw, reg);
    var want := UnionVote(AsBags(unionDict));
    forall k | k in m ensures k in want && m[k] == want[k] {
      UnionEntry(unionDict, k);
    }
    forall k | k in want ensures k in m {
      assert k in raw;
    }
    SameMap(m, want);
  }

  /** One key of the union vote is the cleaned list of that key. */
  lemma UnionEntry(unionDict: map<string, seq<Elem>>, k: string)
    requires k in unionDict
    ensures Normalize(ListValue(unionDict[k])) == UnionVote(AsBags(unionDict))[k]
  {
    assert AsBags(unionDict)[k] == multiset(unionDict[k]);
    ListElements(unionDict[k]);
  }

  /** The inner loop of `concat_json_result`: appends one cleaned
      dictionary to the accumulated lists. */
  method AppendCleaned(unionDict: map<string, seq<Elem>>, c: map<string, Cleaned>)
    returns (d: map<string, seq<Elem>>)
    ensures AsBags(d) == Append(AsBags(unionDict), c)
    ensures d.Keys == unionDict.Keys + c.Keys
  {
    d := unionDict;
    ghost var acc := AsBags(unionDict);
    var todo := c.Keys;
    AppendNothing(acc, c);
    while todo != {}
      invariant todo <= c.Keys
      invariant AsBags(d) == Append(acc, c - todo)
      decreases todo
    {
      var k :| k in todo;
      var piece := ContributionList(c[k]);
      AppendOne(d, acc, c, todo, k, piece);
      var prev := if k in d then d[k] else [];
      d := d[k := prev + piece];
      todo := todo - {k};
    }
    AllDone(d, acc, c);
  }

  /** Once nothing is left to do, every key of c has been appended. */
  lemma AllDone(d: map<string, seq<Elem>>, acc: map<string, multiset<Elem>>, c: map<string, Cleaned>)
    requires AsBags(d) == Append(acc, c - {})
    ensures AsBags(d) == Append(acc, c)
    ensures d.Keys == acc.Keys + c.Keys
  {
    assert c - {} == c;
  }

  /** The "majority_vote" branch: the most frequent values of each
      accumulated list, failing on an empty list. */
  method MajorityMerge(unionDict: map<string, seq<Elem>>) returns (r: Result<map<string, Cleaned>>)
    ensures var obs := AsBags(unionDict);
            r == if exists k :: k in obs && obs[k] == multiset{} then Err(EmptyCountError)
                 else Ok(MajorityVote(obs))
  {
    var obs := AsBags(unionDict);
    var merged := map[];
    var todo := unionDict.Keys;
    while todo != {}
      invariant todo <= unionDict.Keys
      invariant merged == map k | k in unionDict.Keys - todo :: CSet(Modes(obs[k]))
      invariant forall k :: k in unionDict.Keys - todo ==> obs[k] != multiset{}
      decreases todo
    {
      var k :| k in todo;
      if unionDict[k] == [] {
        assert obs[k] == multiset{};
        return Err(EmptyCountError);
      }
      var modes := MostCommon(unionDict[k]);
      merged := merged[k := CSet(modes)];
      todo := todo - {k};
    }
    assert merged == MajorityVote(obs);
    return Ok(merged);
  }

  /** The closing loop: every set holding True becomes True. */
  method PromoteAll(m: map<string, Cleaned>) returns (merged: map<string, Cleaned>)
    ensures merged == Promote(m)
  {
    merged := m;
    var todo := m.Keys;
    while todo != {}
      invariant todo <= m.Keys
      invariant merged.Keys == m.Keys
      invariant forall k :: k in merged ==> merged[k] == if k in todo then m[k] else PromoteValue(m[k])
      decreases todo
    {
      var k :| k in todo;
      if merged[k].CSet? && BoolElem(true) in merged[k].elems {
        merged := merged[k := CBool(true)];
      }
      todo := todo - {k};
    }
  }

  /** With one more well-shaped input, the accumulation grows by that
      input's cleaned dictionary. */
  lemma ObservationsStep(results: seq<map<string, Raw>>, reg: seq<string>, i: nat, c: map<string, Cleaned>)
    requires i < |results| && WellShaped(results[..i], reg)
    requires Clean(results[i], reg) == Ok(c)
    ensures WellShaped(results[..i + 1], reg)
    ensures Observations(results[..i + 1], reg) == Append(Observations(results[..i], reg), c)
  {
    var next := results[..i + 1];
    PrefixOfPrefix(results, i);
    forall j | 0 <= j < i + 1 ensures Clean(next[j], reg).Ok? {
      if j < i {
        assert next[j] == results[..i][j];
      }
    }
    assert CleanedAt(next, reg, i) == c;
    assert Observations(next, reg) == Append(Observations(next[..i], reg), CleanedAt(next, reg, i));
  }

  /** The first i + 1 inputs, cut after i, are the first i. */
  lemma PrefixOfPrefix(results: seq<map<string, Raw>>, i: nat)
    requires i < |results|
    ensures results[..i + 1][..i] == results[..i]
    ensures results[..i + 1][i] == results[i]
  {
  }

  /** The first loop of `concat_json_result`: clean every input and
      append its values to `union_dict`. */
  method CollectResults(results: seq<map<string, Raw>>, reg: seq<string>)
    returns (r: Result<map<string, seq<Elem>>>)
    ensures r.Err? <==> !WellShaped(results, reg)
    ensures r.Err? ==> r.error == ShapeError
    ensures r.Ok? ==> AsBags(r.value) == Observations(results, reg)
    ensures r.Ok? ==> forall k :: k in r.value ==> k in reg
  {
    var unionDict: map<string, seq<Elem>> := map[];
    var i := 0;
    while i < |results|
      invariant 0 <= i <= |results|
      invariant WellShaped(results[..i], reg)
      invariant AsBags(unionDict) == Observations(results[..i], reg)
      invariant forall k :: k in unionDict ==> k in reg
    {
      var cleaned := CleanValues(results[i], reg);
      if cleaned.Err? {
        return Err(ShapeError);
      }
      ObservationsStep(results, reg, i, cleaned.value);
      unionDict := AppendCleaned(unionDict, cleaned.value);
      i := i + 1;
    }
    assert results[..i] == results;
    return Ok(unionDict);
  }

  /** The voting step and the final promotion of `True`. */
  method VoteWith(unionDict: map<string, seq<Elem>>, option: string, reg: seq<string>)
    returns (r: Result<map<string, Cleaned>>)
    requires forall k :: k in unionDict ==> k in reg
    ensures r == VoteOn(AsBags(unionDict), option)
  {
    var merged: map<string, Cleaned>;
    if option == "union" {
      var raw := map k | k in unionDict :: ListValue(unionDict[k]);
      var again := CleanValues(raw, reg);
      UnionViaClean(unionDict, reg);
      merged := again.value;
    } else if option == "majority_vote" {
      var voted := MajorityMerge(unionDict);
      if voted.Err? {
        return voted;
      }
      merged := voted.value;
    } else {
      return Err(VoteOptionError(option));
    }
    var promoted := PromoteAll(merged);
    return Ok(promoted);
  }

  /** `concat_json_result` with the cleaner's registry as a parameter:
      cleans and accumulates every input, applies the vote, then promotes
      sets holding True. */
  method ConcatWith(results: seq<map<string, Raw>>, option: string, reg: seq<string>)
    returns (r: Result<map<string, Cleaned>>)
    ensures r == Concat(results, option, reg)
  {
    var collected := CollectResults(results, reg);
    if collected.Err? {
      return Err(ShapeError);
    }
    r := VoteWith(collected.value, option, reg);
  }

  /** `concat_json_result(results, vote_option)`: the inputs are cleaned
      against the default registry. */
  method ConcatJsonResult(results: seq<map<string, Raw>>, option: string := "union")
    returns (r: Result<map<string, Cleaned>>)
    ensures r == Concat(results, option, DefaultKeys())
  {
    r := ConcatWith(results, option, DefaultKeys());
  }
}
