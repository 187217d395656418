/**
 * Set-based scoring (gptsenpy/metrics/metrics.py): `Metrics` compares one
 * set of gold labels with one set of predictions; `MetricGroup` does so per
 * category and macro-averages the per-category scores. Scores are exact
 * reals.
 */
module Scoring {
  import opened Annotations
  import opened MapSums

  /** Recall: the share of the labels that were predicted, 0 when there are
      no labels. */
  function Recall(labels: set<Elem>, preds: set<Elem>): (r: real)
    ensures 0.0 <= r <= 1.0
  {
    if |labels| == 0 then 0.0
    else
      assert labels * preds <= labels;
      SubsetCard(labels * preds, labels);
      |labels * preds| as real / |labels| as real
  }

  /** Precision: the share of the predictions that are labels, 0 when
      nothing was predicted. */
  function Precision(labels: set<Elem>, preds: set<Elem>): (r: real)
    ensures 0.0 <= r <= 1.0
  {
    if |preds| == 0 then 0.0
    else
      assert preds * labels <= preds;
      SubsetCard(preds * labels, preds);
      |preds * labels| as real / |preds| as real
  }

  /** Precision is recall with the roles of labels and predictions swapped. */
  lemma PrecisionIsSwappedRecall(labels: set<Elem>, preds: set<Elem>)
    ensures Precision(labels, preds) == Recall(preds, labels)
  {
    assert preds * labels == labels * preds;
  }

  /** The harmonic mean of recall and precision, 0 when both are 0. */
  function F1(recall: real, precision: real): (f: real)
    ensures 0.0 <= recall && 0.0 <= precision ==> 0.0 <= f
    ensures recall == precision ==> f == recall
  {
    if recall + precision == 0.0 then 0.0
    else 2.0 * recall * precision / (recall + precision)
  }

  lemma SubsetCard(a: set<Elem>, b: set<Elem>)
    requires a <= b
    ensures |a| <= |b|
  {
    if a != {} {
      var x :| x in a;
      SubsetCard(a - {x}, b - {x});
    }
  }

  /** Recall is 1 exactly when there are labels and every label was
      predicted, and 0 exactly when no label was predicted. */
  lemma RecallExtremes(labels: set<Elem>, preds: set<Elem>)
    ensures Recall(labels, preds) == 1.0 <==> labels != {} && labels <= preds
    ensures Recall(labels, preds) == 0.0 <==> labels * preds == {}
  {
    if labels != {} {
      var hits := labels * preds;
      SubsetCard(hits, labels);
      RatioExtremes(|hits|, |labels|);
      AllHit(labels, preds);
      assert |hits| == 0 <==> hits == {};
    }
  }

  /** A ratio of counts h / n with 0 <= h <= n is 1 only when h == n and 0
      only when h == 0. */
  lemma RatioExtremes(h: nat, n: nat)
    requires 0 < n && h <= n
    ensures h as real / n as real == 1.0 <==> h == n
    ensures h as real / n as real == 0.0 <==> h == 0
  {
    var q := h as real / n as real;
    assert q * n as real == h as real;
  }

  /** Every label is hit exactly when the hits are as many as the labels. */
  lemma AllHit(labels: set<Elem>, preds: set<Elem>)
    ensures |labels * preds| == |labels| <==> labels <= preds
  {
    var hits := labels * preds;
    if labels <= preds {
      assert hits == labels;
    } else {
      var x :| x in labels && x !in preds;
      SubsetCard(hits, labels - {x});
    }
  }

  /** Multiplying by a positive number keeps the sign. */
  lemma ProductSign(x: real, s: real)
    requires s > 0.0
    ensures x * s >= 0.0 <==> x >= 0.0
    ensures x * s <= 0.0 <==> x <= 0.0
    ensures x * s == 0.0 <==> x == 0.0
  {
    if x < 0.0 {
      assert x * s == -((-x) * s);
      assert (-x) * s > 0.0;
    }
    if x > 0.0 {
      assert x * s > 0.0;
    }
  }

  lemma NonNegProduct(a: real, b: real)
    requires a >= 0.0 && b >= 0.0
    ensures a * b >= 0.0
  {
  }

  /** F1 of two non-negative scores, times their sum, is twice their
      product; its distance to either score has a known sign. */
  lemma F1Scaled(recall: real, precision: real)
    requires 0.0 <= recall && 0.0 <= precision && recall + precision != 0.0
    ensures F1(recall, precision) * (recall + precision) == 2.0 * recall * precision
    ensures (F1(recall, precision) - recall) * (recall + precision) == recall * (precision - recall)
    ensures (precision - F1(recall, precision)) * (recall + precision) == precision * (precision - recall)
  {
  }

  /** F1 lies between recall and precision; for scores in [0, 1] it is
      1 exactly when both are 1. */
  lemma F1Between(recall: real, precision: real)
    requires 0.0 <= recall && 0.0 <= precision
    ensures recall <= precision ==> recall <= F1(recall, precision) <= precision
    ensures precision <= recall ==> precision <= F1(recall, precision) <= recall
    ensures recall <= 1.0 && precision <= 1.0 ==>
              (F1(recall, precision) == 1.0 <==> recall == 1.0 && precision == 1.0)
  {
    var s := recall + precision;
    if s != 0.0 {
      var f := F1(recall, precision);
      F1Scaled(recall, precision);
      ProductSign(f - recall, s);
      ProductSign(precision - f, s);
      if recall <= precision {
        NonNegProduct(recall, precision - recall);
        NonNegProduct(precision, precision - recall);
      } else {
        NonNegProduct(recall, recall - precision);
        NonNegProduct(precision, recall - precision);
      }
      if recall <= 1.0 && precision <= 1.0 && f == 1.0 {
        F1Reaches1(recall, precision);
      }
    }
  }

  /** F1 of two scores in [0, 1] is 1 only when both are 1. */
  lemma F1Reaches1(recall: real, precision: real)
    requires 0.0 <= recall <= 1.0 && 0.0 <= precision <= 1.0 && recall + precision != 0.0
    requires F1(recall, precision) == 1.0
    ensures recall == 1.0 && precision == 1.0
  {
    F1Scaled(recall, precision);
    NonNegProduct(1.0 - precision, recall);
    NonNegProduct(1.0 - recall, precision);
    assert (1.0 - precision) * recall + (1.0 - recall) * precision == 0.0;
    assert recall == precision;
    ProductSign(recall - 1.0, recall);
  }

  /** F1 of two non-negative scores is 0 exactly when one of them is 0. */
  lemma F1Zero(recall: real, precision: real)
    requires 0.0 <= recall && 0.0 <= precision
    ensures F1(recall, precision) == 0.0 <==> recall == 0.0 || precision == 0.0
  {
    var s := recall + precision;
    if s != 0.0 {
      F1Scaled(recall, precision);
      ProductSign(F1(recall, precision), s);
      if recall != 0.0 {
        ProductSign(precision, recall);
      }
    }
  }

  /** One `Metrics` object: both sets, their sizes and the three scores. */
  datatype Metrics = Metrics(
    labels: set<Elem>,
    preds: set<Elem>,
    numLabels: nat,
    numPreds: nat,
    recall: real,
    precision: real,
    f1: real)

  /** `Metrics(labels, preds)`. */
  function MetricsOf(labels: set<Elem>, preds: set<Elem>): (m: Metrics)
    ensures m.labels == labels && m.preds == preds
    ensures m.numLabels == |labels| && m.numPreds == |preds|
    ensures m.recall == Recall(labels, preds) && m.precision == Precision(labels, preds)
    ensures m.f1 == F1(m.recall, m.precision) && 0.0 <= m.f1 <= 1.0
  {
    var r := Recall(labels, preds);
    var p := Precision(labels, preds);
    F1Between(r, p);
    Metrics(labels, preds, |labels|, |preds|, r, p, F1(r, p))
  }

  /** Identical non-empty sets score 1 everywhere. */
  lemma PerfectMatch(s: set<Elem>)
    requires s != {}
    ensures var m := MetricsOf(s, s);
            m.recall == 1.0 && m.precision == 1.0 && m.f1 == 1.0
  {
    RecallExtremes(s, s);
    F1Between(1.0, 1.0);
  }

  /** The scores are 1 exactly when both sets are equal and non-empty. */
  lemma PerfectOnlyIfEqual(labels: set<Elem>, preds: set<Elem>)
    ensures MetricsOf(labels, preds).f1 == 1.0 <==> labels == preds && labels != {}
  {
    RecallExtremes(labels, preds);
    RecallExtremes(preds, labels);
    F1Between(Recall(labels, preds), Recall(preds, labels));
  }

  /** The scores are 0 exactly when no label was predicted. */
  lemma NoHit(labels: set<Elem>, preds: set<Elem>)
    ensures var m := MetricsOf(labels, preds);
            m.recall == 0.0 && m.precision == 0.0 && m.f1 == 0.0 <==> labels * preds == {}
  {
    RecallExtremes(labels, preds);
    RecallExtremes(preds, labels);
    PrecisionIsSwappedRecall(labels, preds);
    assert preds * labels == labels * preds;
    F1Zero(Recall(labels, preds), Precision(labels, preds));
  }

  // ---------------------------------------------------------------------
  // MetricGroup

  /** `labels[c] if c in labels else set()`. */
  function SetAt(m: map<string, set<Elem>>, c: string): set<Elem>
  {
    if c in m then m[c] else {}
  }

  /** The recall of every labelled category. */
  function AllRecalls(labels: map<string, set<Elem>>, preds: map<string, set<Elem>>): map<string, real>
  {
    map c | c in labels :: Recall(labels[c], SetAt(preds, c))
  }

  /** The precision of every predicted category. */
  function AllPrecisions(labels: map<string, set<Elem>>, preds: map<string, set<Elem>>): map<string, real>
  {
    map c | c in preds :: Precision(SetAt(labels, c), preds[c])
  }

  /** The entries of `m` whose key is among `keys`. */
  function Restrict<V>(m: map<string, V>, keys: set<string>): map<string, V>
  {
    map c | c in m && c in keys :: m[c]
  }

  /** `recall_dct`: one recall per labelled category that is listed. */
  function RecallTable(labels: map<string, set<Elem>>, preds: map<string, set<Elem>>, cats: set<string>): map<string, real>
  {
    Restrict(AllRecalls(labels, preds), cats)
  }

  /** `precision_dct`: one precision per predicted category that is listed. */
  function PrecisionTable(labels: map<string, set<Elem>>, preds: map<string, set<Elem>>, cats: set<string>): map<string, real>
  {
    Restrict(AllPrecisions(labels, preds), cats)
  }

  /** `num_labels_dct` / `num_preds_dct`: a size for every listed category. */
  function CountTable(m: map<string, set<Elem>>, cats: set<string>): map<string, nat>
  {
    map c | c in cats :: |SetAt(m, c)|
  }

  /** The average of a table's values, 0 for an empty table. */
  ghost function Mean(t: map<string, real>): real
  {
    if |t| == 0 then 0.0 else SumReal(t) / |t| as real
  }

  /** What `export_metrics` returns. */
  datatype Summary = Summary(recall: real, precision: real, f1: real, numLabels: nat, numPreds: nat)

  /** The summary a group built from these inputs exports. */
  ghost function Scores(labels: map<string, set<Elem>>, preds: map<string, set<Elem>>, cats: set<string>): Summary
  {
    var recall := Mean(RecallTable(labels, preds, cats));
    var precision := Mean(PrecisionTable(labels, preds, cats));
    Summary(recall, precision, F1(recall, precision),
            SumNat(CountTable(labels, cats)), SumNat(CountTable(preds, cats)))
  }

  class MetricGroup {
    const labels: map<string, set<Elem>>
    const preds: map<string, set<Elem>>
    const labelCategory: map<string, seq<string>>
    var recallTable: map<string, real>
    var precisionTable: map<string, real>
    var numLabelsTable: map<string, nat>
    var numPredsTable: map<string, nat>
    var recall: real
    var precision: real
    var f1: real
    var numLabels: nat
    var numPreds: nat

    /** The tables and aggregates are those of the inputs. */
    ghost predicate Valid()
      reads this
    {
      && recallTable == RecallTable(labels, preds, labelCategory.Keys)
      && precisionTable == PrecisionTable(labels, preds, labelCategory.Keys)
      && numLabelsTable == CountTable(labels, labelCategory.Keys)
      && numPredsTable == CountTable(preds, labelCategory.Keys)
      && recall == Mean(recallTable) && precision == Mean(precisionTable) && f1 == F1(recall, precision)
      && numLabels == SumNat(numLabelsTable) && numPreds == SumNat(numPredsTable)
    }

    constructor (labels: map<string, set<Elem>>, preds: map<string, set<Elem>>, labelCategory: map<string, seq<string>>)
      ensures this.labels == labels && this.preds == preds && this.labelCategory == labelCategory
      ensures Valid()
    {
      this.labels := labels;
      this.preds := preds;
      this.labelCategory := labelCategory;

      var rt := RecallDict(labels, preds, labelCategory.Keys);
      var pt := PrecisionDict(labels, preds, labelCategory.Keys);
      var lt, nt := CountDicts(labels, preds, labelCategory.Keys);
      recallTable := rt;
      precisionTable := pt;
      numLabelsTable := lt;
      numPredsTable := nt;
      var summary := Aggregate(rt, pt, lt, nt);
      recall := summary.recall;
      precision := summary.precision;
      f1 := summary.f1;
      numLabels := summary.numLabels;
      numPreds := summary.numPreds;
    }

    /** `export_metrics`: the five aggregates, leaving the group unchanged. */
    method ExportMetrics() returns (s: Summary)
      requires Valid()
      ensures s == Scores(labels, preds, labelCategory.Keys)
    {
      s := Summary(recall, precision, f1, numLabels, numPreds);
    }
  }

  /** The first loop of `MetricGroup.__init__`: the recall of every
      labelled category that is listed. */
  method RecallDict(labels: map<string, set<Elem>>, preds: map<string, set<Elem>>, cats: set<string>)
    returns (rt: map<string, real>)
    ensures rt == RecallTable(labels, preds, cats)
  {
    ghost var all := AllRecalls(labels, preds);
    rt := map[];
    var todo := labels.Keys;
    RestrictNone(all, cats);
    while todo != {}
      invariant todo <= labels.Keys
      invariant rt == RecallTable(labels, preds, cats - todo)
      decreases todo
    {
      var c :| c in todo;
      if c in cats {
        RestrictAdd(all, cats, todo, c);
        var predSet := if c in preds then preds[c] else {};
        var mt := MetricsOf(labels[c], predSet);
        rt := rt[c := mt.recall];
      } else {
        RestrictSkip(all, cats, todo, c);
      }
      todo := todo - {c};
    }
    assert cats - {} == cats;
  }

  /** The second loop of `MetricGroup.__init__`: the precision of every
      predicted category that is listed. */
  method PrecisionDict(labels: map<string, set<Elem>>, preds: map<string, set<Elem>>, cats: set<string>)
    returns (pt: map<string, real>)
    ensures pt == PrecisionTable(labels, preds, cats)
  {
    ghost var all := AllPrecisions(labels, preds);
    pt := map[];
    var todo := preds.Keys;
    RestrictNone(all, cats);
    while todo != {}
      invariant todo <= preds.Keys
      invariant pt == PrecisionTable(labels, preds, cats - todo)
      decreases todo
    {
      var c :| c in todo;
      if c in cats {
        RestrictAdd(all, cats, todo, c);
        var labelSet := if c in labels then labels[c] else {};
        var mt := MetricsOf(labelSet, preds[c]);
        pt := pt[c := mt.precision];
      } else {
        RestrictSkip(all, cats, todo, c);
      }
      todo := todo - {c};
    }
    assert cats - {} == cats;
  }

  /** The third loop of `MetricGroup.__init__`: the number of labels and of
      predictions of every listed category, present or not. */
  method CountDicts(labels: map<string, set<Elem>>, preds: map<string, set<Elem>>, cats: set<string>)
    returns (lt: map<string, nat>, nt: map<string, nat>)
    ensures lt == CountTable(labels, cats) && nt == CountTable(preds, cats)
  {
    lt, nt := map[], map[];
    var todo := cats;
    assert cats - cats == {};
    while todo != {}
      invariant todo <= cats
      invariant lt == CountTable(labels, cats - todo)
      invariant nt == CountTable(preds, cats - todo)
      decreases todo
    {
      var c :| c in todo;
      var labelSet := if c in labels then labels[c] else {};
      var predSet := if c in preds then preds[c] else {};
      var mt := MetricsOf(labelSet, predSet);
      CountTableStep(labels, cats, todo, c);
      CountTableStep(preds, cats, todo, c);
      lt := lt[c := mt.numLabels];
      nt := nt[c := mt.numPreds];
      todo := todo - {c};
    }
    assert cats - {} == cats;
  }

  /** The macro average of `MetricGroup.__init__`: the values' sum over their
      number, 0.0 for an empty table. */
  method Average(t: map<string, real>) returns (a: real)
    ensures a == Mean(t)
  {
    var total := SumRealValues(t);
    a := if |t| == 0 then 0.0 else total / |t| as real;
  }

  /** The aggregates of `MetricGroup.__init__`: the macro averages, the
      harmonic mean of the two averages, and the summed counts. */
  method Aggregate(rt: map<string, real>, pt: map<string, real>, lt: map<string, nat>, nt: map<string, nat>)
    returns (s: Summary)
    ensures s.recall == Mean(rt) && s.precision == Mean(pt) && s.f1 == F1(s.recall, s.precision)
    ensures s.numLabels == SumNat(lt) && s.numPreds == SumNat(nt)
  {
    var r := Average(rt);
    var p := Average(pt);
    var labelCount := SumNatValues(lt);
    var predCount := SumNatValues(nt);
    s := Summary(r, p, F1(r, p), labelCount, predCount);
  }

  /** Before a table loop of the constructor, no listed key of `m` is done. */
  lemma RestrictNone<V>(m: map<string, V>, cats: set<string>)
    ensures Restrict(m, cats - m.Keys) == map[]
  {
    SameMap(Restrict(m, cats - m.Keys), map[]);
  }

  /** A step of a table loop of the constructor that records a listed key. */
  lemma RestrictAdd<V>(m: map<string, V>, cats: set<string>, todo: set<string>, c: string)
    requires c in todo && todo <= m.Keys && c in cats
    ensures Restrict(m, cats - (todo - {c})) == Restrict(m, cats - todo)[c := m[c]]
  {
    var l := Restrict(m, cats - (todo - {c}));
    var r := Restrict(m, cats - todo)[c := m[c]];
    forall j | j in r ensures j in l {
    }
    SameMap(l, r);
  }

  /** A step of a table loop of the constructor that skips an unlisted key. */
  lemma RestrictSkip<V>(m: map<string, V>, cats: set<string>, todo: set<string>, c: string)
    requires c in todo && c !in cats
    ensures Restrict(m, cats - (todo - {c})) == Restrict(m, cats - todo)
  {
    var l := Restrict(m, cats - (todo - {c}));
    var r := Restrict(m, cats - todo);
    forall j | j in l ensures j in r && l[j] == r[j] {
      assert j != c;
    }
    SameMap(l, r);
  }

  /** One step of the third loop of the constructor. */
  lemma CountTableStep(m: map<string, set<Elem>>, cats: set<string>, todo: set<string>, c: string)
    requires c in todo && todo <= cats
    ensures CountTable(m, cats - (todo - {c})) == CountTable(m, cats - todo)[c := |SetAt(m, c)|]
  {
    var l := CountTable(m, cats - (todo - {c}));
    var r := CountTable(m, cats - todo)[c := |SetAt(m, c)|];
    forall j | j in r ensures j in l {
    }
    SameMap(l, r);
  }

  /** The average of scores in [0, 1] lies in [0, 1], and is 1 exactly when
      there are scores and all of them are 1. */
  lemma MeanOfScores(t: map<string, real>)
    requires forall c :: c in t ==> 0.0 <= t[c] <= 1.0
    ensures 0.0 <= Mean(t) <= 1.0
    ensures Mean(t) == 1.0 <==> |t| > 0 && forall c :: c in t ==> t[c] == 1.0
  {
    SumRealUnitBounds(t);
    if |t| > 0 {
      var n := |t| as real;
      var q := SumReal(t) / n;
      assert q * n == SumReal(t);
      ProductSign(q, n);
      ProductSign(1.0 - q, n);
      ProductSign(q - 1.0, n);
    }
  }

  /** Every aggregate lies in [0, 1]. */
  lemma ScoresBounded(labels: map<string, set<Elem>>, preds: map<string, set<Elem>>, cats: set<string>)
    ensures var s := Scores(labels, preds, cats);
            0.0 <= s.recall <= 1.0 && 0.0 <= s.precision <= 1.0 && 0.0 <= s.f1 <= 1.0
  {
    MeanOfScores(RecallTable(labels, preds, cats));
    MeanOfScores(PrecisionTable(labels, preds, cats));
    var s := Scores(labels, preds, cats);
    F1Between(s.recall, s.precision);
  }

  /** The group recall is 1 exactly when some listed category has labels and
      every listed labelled category had all of its labels predicted. */
  lemma GroupRecallPerfect(labels: map<string, set<Elem>>, preds: map<string, set<Elem>>, cats: set<string>)
    ensures Scores(labels, preds, cats).recall == 1.0 <==>
              (exists c :: c in labels && c in cats) &&
              forall c :: c in labels && c in cats ==> labels[c] != {} && labels[c] <= SetAt(preds, c)
  {
    var t := RecallTable(labels, preds, cats);
    MeanOfScores(t);
    forall c | c in labels && c in cats
      ensures c in t && (t[c] == 1.0 <==> labels[c] != {} && labels[c] <= SetAt(preds, c))
    {
      RecallExtremes(labels[c], SetAt(preds, c));
    }
  }

  /** The group precision is 1 exactly when some listed category has
      predictions and every listed predicted category predicted only labels. */
  lemma GroupPrecisionPerfect(labels: map<string, set<Elem>>, preds: map<string, set<Elem>>, cats: set<string>)
    ensures Scores(labels, preds, cats).precision == 1.0 <==>
              (exists c :: c in preds && c in cats) &&
              forall c :: c in preds && c in cats ==> preds[c] != {} && preds[c] <= SetAt(labels, c)
  {
    var t := PrecisionTable(labels, preds, cats);
    MeanOfScores(t);
    forall c | c in preds && c in cats
      ensures c in t && (t[c] == 1.0 <==> preds[c] != {} && preds[c] <= SetAt(labels, c))
    {
      PrecisionIsSwappedRecall(SetAt(labels, c), preds[c]);
      RecallExtremes(preds[c], SetAt(labels, c));
    }
  }

  /** Scoring annotations against themselves gives the same recall and
      precision tables. */
  lemma SelfTables(m: map<string, set<Elem>>, cats: set<string>)
    ensures RecallTable(m, m, cats) == PrecisionTable(m, m, cats)
  {
    var rt := RecallTable(m, m, cats);
    var pt := PrecisionTable(m, m, cats);
    forall c | c in rt ensures c in pt && rt[c] == pt[c] {
      PrecisionIsSwappedRecall(m[c], m[c]);
    }
    SameMap(rt, pt);
  }

  /** Scoring annotations against themselves: recall and precision agree,
      and so do the two counts. */
  lemma SelfScoring(m: map<string, set<Elem>>, cats: set<string>)
    ensures Scores(m, m, cats).recall == Scores(m, m, cats).precision
    ensures Scores(m, m, cats).numLabels == Scores(m, m, cats).numPreds
  {
    SelfTables(m, cats);
  }

  /** Scoring annotations against themselves gives 1 everywhere when some
      listed category is present and every present listed category has a
      value. */
  lemma SelfScoringPerfect(m: map<string, set<Elem>>, cats: set<string>)
    requires exists c :: c in m && c in cats
    requires forall c :: c in m && c in cats ==> m[c] != {}
    ensures Scores(m, m, cats).recall == 1.0
    ensures Scores(m, m, cats).precision == 1.0
    ensures Scores(m, m, cats).f1 == 1.0
  {
    SelfScoring(m, cats);
    GroupRecallPerfect(m, m, cats);
    assert F1(1.0, 1.0) == 1.0;
  }

  /** With no category listed every aggregate is 0. */
  lemma NoCategories(labels: map<string, set<Elem>>, preds: map<string, set<Elem>>)
    ensures Scores(labels, preds, {}) == Summary(0.0, 0.0, 0.0, 0, 0)
  {
    SameMap(RecallTable(labels, preds, {}), map[]);
    SameMap(PrecisionTable(labels, preds, {}), map[]);
    SameMap(CountTable(labels, {}), map[]);
    SameMap(CountTable(preds, {}), map[]);
  }

  /** A worked example: an optimizer label predicted among two candidates, an
      epoch count predicted among three, and an unlisted weight decay that
      the group ignores. */
  function ExampleLabels(): map<string, set<Elem>>
  {
    map["optimizer" := {StrElem("Adam")}, "epochs" := {NumElem(10.0)}]
  }

  function ExamplePreds(): map<string, set<Elem>>
  {
    map["optimizer" := {StrElem("Adam"), StrElem("SGD")},
        "weightdecay" := {NumElem(0.00005), NumElem(0.0005)},
        "epochs" := {NumElem(10.0), NumElem(20.0), NumElem(30.0)}]
  }

  /** The scores of the worked example's two listed categories. */
  lemma ExampleCategoryScores()
    ensures Recall({StrElem("Adam")}, {StrElem("Adam"), StrElem("SGD")}) == 1.0
    ensures Precision({StrElem("Adam")}, {StrElem("Adam"), StrElem("SGD")}) == 1.0 / 2.0
    ensures Recall({NumElem(10.0)}, {NumElem(10.0), NumElem(20.0), NumElem(30.0)}) == 1.0
    ensures Precision({NumElem(10.0)}, {NumElem(10.0), NumElem(20.0), NumElem(30.0)}) == 1.0 / 3.0
  {
    var optimizers := {StrElem("Adam"), StrElem("SGD")};
    var epochs := {NumElem(10.0), NumElem(20.0), NumElem(30.0)};
    assert optimizers * {StrElem("Adam")} == {StrElem("Adam")};
    assert epochs * {NumElem(10.0)} == {NumElem(10.0)};
    assert |optimizers| == 2;
    assert |epochs| == 3;
    RecallExtremes({StrElem("Adam")}, optimizers);
    RecallExtremes({NumElem(10.0)}, epochs);
  }

  /** The recall table of the worked example. */
  lemma ExampleRecallTable()
    ensures RecallTable(ExampleLabels(), ExamplePreds(), {"optimizer", "epochs"}) ==
              map["optimizer" := 1.0, "epochs" := 1.0]
  {
    ExampleCategoryScores();
    SameMap(RecallTable(ExampleLabels(), ExamplePreds(), {"optimizer", "epochs"}),
            map["optimizer" := 1.0, "epochs" := 1.0]);
  }

  /** The precision table of the worked example. */
  lemma ExamplePrecisionTable()
    ensures PrecisionTable(ExampleLabels(), ExamplePreds(), {"optimizer", "epochs"}) ==
              map["optimizer" := 1.0 / 2.0, "epochs" := 1.0 / 3.0]
  {
    ExampleCategoryScores();
    SameMap(PrecisionTable(ExampleLabels(), ExamplePreds(), {"optimizer", "epochs"}),
            map["optimizer" := 1.0 / 2.0, "epochs" := 1.0 / 3.0]);
  }

  /** The label counts of the worked example. */
  lemma ExampleLabelCounts()
    ensures CountTable(ExampleLabels(), {"optimizer", "epochs"}) == map["optimizer" := 1, "epochs" := 1]
  {
    SameMap(CountTable(ExampleLabels(), {"optimizer", "epochs"}), map["optimizer" := 1, "epochs" := 1]);
  }

  /** The prediction counts of the worked example. */
  lemma ExamplePredCounts()
    ensures CountTable(ExamplePreds(), {"optimizer", "epochs"}) == map["optimizer" := 2, "epochs" := 3]
  {
    var p := ExamplePreds();
    assert |p["optimizer"]| == 2;
    assert |p["epochs"]| == 3;
    SameMap(CountTable(p, {"optimizer", "epochs"}), map["optimizer" := 2, "epochs" := 3]);
  }

  /** The macro-averaged recall of the worked example. */
  lemma ExampleRecallMean()
    ensures Mean(map["optimizer" := 1.0, "epochs" := 1.0]) == 1.0
  {
    assert |map["optimizer" := 1.0, "epochs" := 1.0]| == 2;
    SumRealPair("optimizer", 1.0, "epochs", 1.0);
  }

  /** The macro-averaged precision of the worked example. */
  lemma ExamplePrecisionMean()
    ensures Mean(map["optimizer" := 1.0 / 2.0, "epochs" := 1.0 / 3.0]) == 5.0 / 12.0
  {
    assert |map["optimizer" := 1.0 / 2.0, "epochs" := 1.0 / 3.0]| == 2;
    SumRealPair("optimizer", 1.0 / 2.0, "epochs", 1.0 / 3.0);
  }

  /** The summary of the worked example: full recall, precision (1/2 + 1/3) / 2,
      and the counts of the two listed categories only. */
  lemma ExampleScores()
    ensures Scores(ExampleLabels(), ExamplePreds(), {"optimizer", "epochs"}) ==
              Summary(1.0, 5.0 / 12.0, 10.0 / 17.0, 2, 5)
  {
    ExampleRecallTable();
    ExamplePrecisionTable();
    ExampleLabelCounts();
    ExamplePredCounts();
    ExampleRecallMean();
    ExamplePrecisionMean();
    SumNatPair("optimizer", 1, "epochs", 1);
    SumNatPair("optimizer", 2, "epochs", 3);
    assert F1(1.0, 5.0 / 12.0) == 10.0 / 17.0;
  }

  /** The worked example with the weight decay listed too. It was predicted
      but not labelled, so it has a precision (0) and no recall. The group
      averages recall over the two labelled categories only, giving 1; an
      average over all three listed categories would give 2/3. Precision
      is (1/2 + 1/3 + 0) / 3 = 5/18 either way. */
  lemma ExampleUnlabelledCategory()
    ensures Scores(ExampleLabels(), ExamplePreds(), {"optimizer", "epochs", "weightdecay"}) ==
              Summary(1.0, 5.0 / 18.0, 10.0 / 23.0, 2, 7)
    ensures SumReal(RecallTable(ExampleLabels(), ExamplePreds(), {"optimizer", "epochs", "weightdecay"})) / 3.0
              == 2.0 / 3.0
  {
    ExampleRecallTableAll();
    ExamplePrecisionTableAll();
    ExampleLabelCountsAll();
    ExamplePredCountsAll();
    ExampleRecallMean();
    SumRealPair("optimizer", 1.0, "epochs", 1.0);
    ExamplePrecisionMeanAll();
    assert F1(1.0, 5.0 / 18.0) == 10.0 / 23.0;
  }

  /** With the weight decay listed, the recall table still has the two
      labelled categories only. */
  lemma ExampleRecallTableAll()
    ensures RecallTable(ExampleLabels(), ExamplePreds(), {"optimizer", "epochs", "weightdecay"}) ==
              map["optimizer" := 1.0, "epochs" := 1.0]
  {
    ExampleCategoryScores();
    SameMap(RecallTable(ExampleLabels(), ExamplePreds(), {"optimizer", "epochs", "weightdecay"}),
            map["optimizer" := 1.0, "epochs" := 1.0]);
  }

  /** With the weight decay listed, the precision table gains its 0. */
  lemma ExamplePrecisionTableAll()
    ensures PrecisionTable(ExampleLabels(), ExamplePreds(), {"optimizer", "epochs", "weightdecay"}) ==
              map["optimizer" := 1.0 / 2.0, "epochs" := 1.0 / 3.0, "weightdecay" := 0.0]
  {
    ExampleCategoryScores();
    var decays := {NumElem(0.00005), NumElem(0.0005)};
    assert |decays| == 2;
    assert Precision({}, decays) == 0.0;
    SameMap(PrecisionTable(ExampleLabels(), ExamplePreds(), {"optimizer", "epochs", "weightdecay"}),
            map["optimizer" := 1.0 / 2.0, "epochs" := 1.0 / 3.0, "weightdecay" := 0.0]);
  }

  /** With the weight decay listed, 2 labels are counted. */
  lemma ExampleLabelCountsAll()
    ensures SumNat(CountTable(ExampleLabels(), {"optimizer", "epochs", "weightdecay"})) == 2
  {
    var l := ExampleLabels();
    assert |SetAt(l, "optimizer")| == 1 && |SetAt(l, "epochs")| == 1;
    assert SetAt(l, "weightdecay") == {};
    SameMap(CountTable(l, {"optimizer", "epochs", "weightdecay"}),
            map["optimizer" := 1, "epochs" := 1, "weightdecay" := 0]);
    SumNatTriple("optimizer", 1, "epochs", 1, "weightdecay", 0);
  }

  /** With the weight decay listed, 7 predictions are counted. */
  lemma ExamplePredCountsAll()
    ensures SumNat(CountTable(ExamplePreds(), {"optimizer", "epochs", "weightdecay"})) == 7
  {
    var p := ExamplePreds();
    assert |p["optimizer"]| == 2;
    assert |p["epochs"]| == 3;
    assert |p["weightdecay"]| == 2;
    SameMap(CountTable(p, {"optimizer", "epochs", "weightdecay"}),
            map["optimizer" := 2, "epochs" := 3, "weightdecay" := 2]);
    SumNatTriple("optimizer", 2, "epochs", 3, "weightdecay", 2);
  }

  /** The macro-averaged precision with the weight decay listed. */
  lemma ExamplePrecisionMeanAll()
    ensures Mean(map["optimizer" := 1.0 / 2.0, "epochs" := 1.0 / 3.0, "weightdecay" := 0.0]) == 5.0 / 18.0
  {
    assert |map["optimizer" := 1.0 / 2.0, "epochs" := 1.0 / 3.0, "weightdecay" := 0.0]| == 3;
    SumRealTriple("optimizer", 1.0 / 2.0, "epochs", 1.0 / 3.0, "weightdecay", 0.0);
  }

  /** The average of zeros is 0. */
  lemma MeanOfZeros(t: map<string, real>)
    requires forall c :: c in t ==> t[c] == 0.0
    ensures Mean(t) == 0.0
  {
    SumRealZeros(t);
  }

  /** Without predictions every listed labelled category has recall 0. */
  lemma RecallWithoutPreds(labels: map<string, set<Elem>>, cats: set<string>)
    ensures Mean(RecallTable(labels, map[], cats)) == 0.0
  {
    var rt := RecallTable(labels, map[], cats);
    forall c | c in rt ensures rt[c] == 0.0 {
      RecallExtremes(labels[c], {});
    }
    MeanOfZeros(rt);
  }

  /** Without labels every listed predicted category has precision 0. */
  lemma PrecisionWithoutLabels(preds: map<string, set<Elem>>, cats: set<string>)
    ensures Mean(PrecisionTable(map[], preds, cats)) == 0.0
  {
    var pt := PrecisionTable(map[], preds, cats);
    forall c | c in pt ensures pt[c] == 0.0 {
      PrecisionIsSwappedRecall({}, preds[c]);
      RecallExtremes(preds[c], {});
    }
    MeanOfZeros(pt);
  }

  /** An absent side has no table entries at all. */
  lemma EmptySideTables(m: map<string, set<Elem>>, cats: set<string>)
    ensures RecallTable(map[], m, cats) == map[]
    ensures PrecisionTable(m, map[], cats) == map[]
    ensures SumNat(CountTable(map[], cats)) == 0
  {
    SameMap(RecallTable(map[], m, cats), map[]);
    SameMap(PrecisionTable(m, map[], cats), map[]);
    SumNatZeros(CountTable(map[], cats));
  }

  /** With no prediction at all every score is 0 and so is the number of
      predictions; the number of labels is unaffected. */
  lemma NothingPredicted(labels: map<string, set<Elem>>, cats: set<string>)
    ensures var s := Scores(labels, map[], cats);
            s.recall == 0.0 && s.precision == 0.0 && s.f1 == 0.0 && s.numPreds == 0
  {
    RecallWithoutPreds(labels, cats);
    EmptySideTables(labels, cats);
  }

  /** With no label at all every score is 0 and so is the number of labels;
      the number of predictions is unaffected. */
  lemma NothingLabelled(preds: map<string, set<Elem>>, cats: set<string>)
    ensures var s := Scores(map[], preds, cats);
            s.recall == 0.0 && s.precision == 0.0 && s.f1 == 0.0 && s.numLabels == 0
  {
    PrecisionWithoutLabels(preds, cats);
    EmptySideTables(preds, cats);
  }
}
