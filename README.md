# GPT_Senpy annotation core in Dafny

GPT_Senpy extracts experimental settings from papers, such as the optimizer, the
learning-rate scheduler, batch size, epochs and hardware. It records them as
annotation dictionaries that map a registry key to a flag or to a set of values.
This project models the three parts of the repository that work on those
dictionaries and proves what they promise.

- **Cleaning and merging** (`gptsenpy/utils/utils.py`, module `Utils`):
  - `DEFAULT_KEY`, the registry of 63 recognised keys;
  - `clean_values`, which keeps the registered keys, drops `None`/`False`, turns lists and
    numbers into sets and rejects any other value;
  - `concat_json_result`, which cleans several annotation dictionaries, accumulates every
    key's values in a list, votes on them with `"union"` or `"majority_vote"`, and finally
    turns every set holding `True` into `True`.
- **Counting** (`get_denominator` from the same file, module `Counting`): the number of
  annotation items a cleaned dictionary stands for.
- **Scoring** (`gptsenpy/metrics/metrics.py`, module `Scoring`):
  - `Metrics` compares one set of gold labels with one set of predictions. It gives recall,
    precision and F1, each 0 on an empty denominator.
  - `MetricGroup` computes those per category, keeping the categories named in its
    `label_category` dictionary. It macro-averages recall and precision over the categories
    present, takes F1 of the two averages, and sums the label and prediction counts.
- **Reading** (`check_duplicate_keys` of `gptsenpy/io/read.py`, module `JsonPairs`): the
  hook the JSON reader uses to refuse an object whose key repeats.

Shared pieces:

- Module `Annotations` holds the value types:
  - tagged set elements (`BoolElem`, `NumElem`, `StrElem`);
  - raw input values, cleaned values, and the error results that stand for the source's
    exceptions.
- Module `MapSums` defines sums over maps and the loops computing them.

Each loop of the source is a method. Its postcondition equals a specification function
of the inputs, and the properties are lemmas about those functions.

- `MetricGroup` is a class whose constructor runs the source's three loops through the
  methods `RecallDict`, `PrecisionDict` and `CountDicts`, each proved against its table
  function.
- `Scores` states what `export_metrics` returns.
- The `concat_json_result` model takes the key registry as a parameter `reg`.
  `ConcatJsonResult` passes `DefaultKeys()`, as the source does.
- The source's default arguments are kept: `CleanValues` cleans against `DefaultKeys()` when no key
  list is given, and `ConcatJsonResult` votes with `"union"` when no option is given.

Where the code and its documentation disagree, the model follows the code:

- `get_denominator`'s docstring example claims 4 for `{'a': True, 'b': False, 'c': {'d', 'e', 'f'}}`.
  The code counts every value, `False` included, and returns 5 (`Counting.DenominatorDocExample`).
- The `MetricGroup` tests in `tests/test_metrics.py` expect averages over all 18 categories of
  `label_category` (they divide by 18, for instance `9 / 18` and `4 / 18`) and an `f1_dct` attribute. The code averages only over the categories that are
  present, and has no `f1_dct`. The model follows the code.
  - `Scoring.ExampleScores` is a small example of the per-category scores. Both of its listed
    categories are present on both sides, so it gives the same values under either averaging.
  - `Scoring.ExampleUnlabelledCategory` lists a category that was predicted but not labelled. The
    code's recall is 1, averaged over the two labelled categories. An average over all three
    listed categories, the tests' rule, would give 2/3. `Scoring.GroupRecallPerfect` states the
    present-only averaging in general.

## Model

| member | source | states |
|---|---|---|
| Utils.DefaultKeys | gptsenpy/utils/utils.py:6-70 | the registry `DEFAULT_KEY`: the 63 recognised keys, in registry order |
| Utils.Normalize | gptsenpy/utils/utils.py:108-113 | `True` stays a flag; a list or set becomes the set of its elements; a number becomes a one-element set |
| Utils.Clean | gptsenpy/utils/utils.py:98-117 | fails with a ValueError exactly when a listed key present in the input holds an unsupported value; otherwise holds exactly the listed keys present and not `None`/`False`, and never the value `False` |
| Utils.CleanValues | gptsenpy/utils/utils.py:98-117 | the loop over the key list returns what `Clean` specifies |
| Utils.CleanIdempotent | gptsenpy/utils/utils.py:98-117 | cleaning a cleaned dictionary again with the same keys returns it unchanged |
| Utils.Append | gptsenpy/utils/utils.py:174-177 | after appending a cleaned dictionary the accumulated keys are the old keys plus its keys |
| Utils.Observations | gptsenpy/utils/utils.py:170-177 | the accumulated dictionary after the first loop holds registered keys only |
| Utils.ObservationsSpec | gptsenpy/utils/utils.py:170-177 | the accumulated dictionary has a key exactly when some cleaned input has it, and holds an element under it exactly when some input contributed that element |
| Utils.SetToList | gptsenpy/utils/utils.py:177 | `list(v)` of a set holds each member exactly once |
| Utils.ContributionList | gptsenpy/utils/utils.py:177 | what one value appends: the flag itself, or every member of the set once |
| Utils.AppendCleaned | gptsenpy/utils/utils.py:174-177 | the inner loop leaves every key's list holding its earlier elements plus the new contribution, and the keys of both dictionaries |
| Utils.CollectResults | gptsenpy/utils/utils.py:170-177 | the first loop fails exactly when some input is malformed; otherwise its lists hold exactly the observations, under registered keys only |
| Utils.UnionViaClean | gptsenpy/utils/utils.py:181-182 | cleaning the accumulated lists against the registry keeps every key and gives each the set of its list's elements |
| Utils.Modes | gptsenpy/utils/utils.py:185-188 | the most frequent values of a list are values of the list, and a non-empty list has at least one |
| Utils.MaxCount | gptsenpy/utils/utils.py:185-186 | `max(cnt.values())` is a count some value attains and no value exceeds |
| Utils.ValuesWithCount | gptsenpy/utils/utils.py:187 | the comprehension keeps exactly the values of the list with the given count |
| Utils.MostCommon | gptsenpy/utils/utils.py:185-188 | the kept values are exactly the most frequent ones, ties included |
| Utils.MajorityMerge | gptsenpy/utils/utils.py:183-188 | fails when some accumulated list is empty (`max` of nothing); otherwise gives each key the set of its most frequent values |
| Utils.Promote | gptsenpy/utils/utils.py:193-199 | keeps every key; a value becomes `True` exactly when it was `True` or a set holding `True`, and every other value is unchanged |
| Utils.PromoteAll | gptsenpy/utils/utils.py:193-199 | every set holding `True` becomes `True`; every other value and every key stays |
| Utils.VoteOn | gptsenpy/utils/utils.py:179-199 | an option other than `"union"` and `"majority_vote"` fails with `VoteOptionError` naming it; a result exists only for `"union"` and `"majority_vote"` and keeps exactly the accumulated keys |
| Utils.VoteWith | gptsenpy/utils/utils.py:179-199 | the vote and promotion steps compute `VoteOn` of the accumulated lists |
| Utils.Concat | gptsenpy/utils/utils.py:146-199 | a result exists only when every input cleans and the option is supported, and its keys are those some cleaned input has |
| Utils.ConcatWith | gptsenpy/utils/utils.py:170-199 | the whole procedure with a registry parameter computes `Concat` |
| Utils.ConcatJsonResult | gptsenpy/utils/utils.py:146-199 | `concat_json_result` computes `Concat` with the default registry |
| Utils.ConcatRejectsUnknownOption | gptsenpy/utils/utils.py:189-192 | any option other than the two supported fails, even with no inputs, and with well-formed inputs the failure names the option |
| Utils.ConcatUnionSpec | gptsenpy/utils/utils.py:170-199 | under `"union"` a key is present exactly when some input has it; its value is `True` exactly when some input contributed `True`, and otherwise is the set of every contributed element |
| Utils.SameSupportSameUnion | gptsenpy/utils/utils.py:181-182 | the union vote depends only on which elements were seen, not how often |
| Utils.ConcatUnionOrderFree | gptsenpy/utils/utils.py:170-182 | under `"union"` the order of the inputs and repeated inputs do not change the result |
| Utils.ObservationsCount | gptsenpy/utils/utils.py:170-177 | the accumulated list of a key holds a value as many times as there are inputs that contributed it under that key |
| Utils.ModesAreMajorities | gptsenpy/utils/utils.py:185-188 | a value is a most frequent value of a key's accumulated list exactly when some input reported it and no value was reported by more inputs |
| Utils.ConcatMajoritySpec | gptsenpy/utils/utils.py:170-199 | under `"majority_vote"` a key is present exactly when some input has it; under it the kept values are exactly those reported by the most inputs, ties included, and the value is `True` exactly when `True` is one of them |
| Utils.ConcatMajorityEmpty | gptsenpy/utils/utils.py:183-188 | with well-formed inputs `"majority_vote"` fails, with the error of `max` of nothing, exactly when some key was seen but no input contributed a value to it |
| Utils.MajorityWithinUnion | gptsenpy/utils/utils.py:179-199 | a majority result has the union's keys; its sets are non-empty subsets of the union's sets, and it is `True` only where the union is |
| Counting.Denominator | gptsenpy/utils/utils.py:137-143 | the count is 0 exactly when every value is an empty set |
| Counting.GetDenominator | gptsenpy/utils/utils.py:120-143 | the loop returns the sum over all values of the set size, or 1 for a flag |
| Counting.DenominatorAdd | gptsenpy/utils/utils.py:137-143 | adding a new key adds exactly the units of its value |
| Counting.DenominatorEmpty | gptsenpy/utils/utils.py:137 | an empty dictionary counts 0 |
| Counting.DenominatorDocExample | gptsenpy/utils/utils.py:133-135 | the documented example counts 5 items (`False` counts) |
| JsonPairs.PairsToMap | gptsenpy/io/read.py:15 | `dict(pairs)` has the pairs' keys, and the last pair's value for its key |
| JsonPairs.KeyCount | gptsenpy/io/read.py:14 | there are never more distinct keys than pairs, and as many exactly when no key repeats |
| JsonPairs.LastWriteWins | gptsenpy/io/read.py:15 | a pair's value is kept when no later pair reuses its key |
| JsonPairs.PairsToMapLookup | gptsenpy/io/read.py:14-15 | without repeated keys every pair is found in the dictionary |
| JsonPairs.CheckDuplicateKeys | gptsenpy/io/read.py:7-15 | refuses the object exactly when a key repeats; otherwise returns one entry per pair holding that pair's value |
| MapSums.SumRealValues | gptsenpy/metrics/metrics.py:41-50 | `sum(d.values())` of a real-valued table |
| MapSums.SumNatValues | gptsenpy/metrics/metrics.py:56-61 | `sum(d.values())` of a count table |
| MapSums.SumRealUnitBounds | gptsenpy/metrics/metrics.py:41-50 | a sum of scores in [0, 1] lies between 0 and their number, and reaches it exactly when every score is 1 |
| Scoring.Recall | gptsenpy/metrics/metrics.py:94-107 | recall lies in [0, 1] |
| Scoring.Precision | gptsenpy/metrics/metrics.py:109-122 | precision lies in [0, 1] |
| Scoring.PrecisionIsSwappedRecall | gptsenpy/metrics/metrics.py:94-122 | precision is recall with labels and predictions exchanged |
| Scoring.F1 | gptsenpy/metrics/metrics.py:124-137 | the F1 of non-negative scores is non-negative, and the F1 of two equal scores is that score |
| Scoring.RecallExtremes | gptsenpy/metrics/metrics.py:94-107 | recall is 1 exactly when there are labels and all were predicted, and 0 exactly when none was |
| Scoring.F1Between | gptsenpy/metrics/metrics.py:124-137 | F1 lies between recall and precision, and for scores in [0, 1] is 1 exactly when both are 1 |
| Scoring.F1Zero | gptsenpy/metrics/metrics.py:134-137 | F1 is 0 exactly when recall or precision is 0 |
| Scoring.MetricsOf | gptsenpy/metrics/metrics.py:73-92 | a `Metrics` object holds both sets, their sizes, recall, precision, and F1 of that recall and precision, which lies in [0, 1] |
| Scoring.PerfectMatch | gptsenpy/metrics/metrics.py:73-137 | identical non-empty sets score 1 on all three scores |
| Scoring.PerfectOnlyIfEqual | gptsenpy/metrics/metrics.py:73-137 | F1 is 1 exactly when the two sets are equal and non-empty |
| Scoring.NoHit | gptsenpy/metrics/metrics.py:73-137 | all three scores are 0 exactly when no label was predicted |
| Scoring.RecallDict | gptsenpy/metrics/metrics.py:20-25 | the first loop records the recall of every listed labelled category and nothing else |
| Scoring.PrecisionDict | gptsenpy/metrics/metrics.py:27-32 | the second loop records the precision of every listed predicted category and nothing else |
| Scoring.CountDicts | gptsenpy/metrics/metrics.py:34-39 | the third loop records both counts for every listed category, present or not |
| Scoring.Average | gptsenpy/metrics/metrics.py:41-50 | the macro average of a table, 0 when it is empty |
| Scoring.Aggregate | gptsenpy/metrics/metrics.py:41-61 | the group aggregates: the two averages, F1 of the averages, and the summed counts |
| Scoring.MetricGroup.constructor | gptsenpy/metrics/metrics.py:5-61 | keeps its inputs and establishes that every table and aggregate is the one its inputs determine |
| Scoring.MetricGroup.ExportMetrics | gptsenpy/metrics/metrics.py:63-70 | returns the five aggregates the inputs determine, without changing the group |
| Scoring.MeanOfScores | gptsenpy/metrics/metrics.py:41-50 | an average of scores in [0, 1] lies in [0, 1], and is 1 exactly when the table is non-empty and all scores are 1 |
| Scoring.ScoresBounded | gptsenpy/metrics/metrics.py:41-55 | the group's recall, precision and F1 all lie in [0, 1] |
| Scoring.GroupRecallPerfect | gptsenpy/metrics/metrics.py:20-45 | group recall is 1 exactly when some listed category has labels and every listed labelled category had all labels predicted |
| Scoring.GroupPrecisionPerfect | gptsenpy/metrics/metrics.py:27-50 | group precision is 1 exactly when some listed category has predictions and every listed predicted category predicted only labels |
| Scoring.SelfTables | gptsenpy/metrics/metrics.py:20-32 | scoring annotations against themselves gives equal recall and precision tables |
| Scoring.SelfScoring | gptsenpy/metrics/metrics.py:5-61 | scoring annotations against themselves gives equal recall and precision and equal counts |
| Scoring.SelfScoringPerfect | gptsenpy/metrics/metrics.py:5-61 | scoring annotations against themselves gives 1 on all three scores when some listed category is present and every present listed category is non-empty |
| Scoring.NoCategories | gptsenpy/metrics/metrics.py:5-61 | with no category listed every aggregate is 0 |
| Scoring.NothingPredicted | gptsenpy/metrics/metrics.py:5-61 | with no predictions all scores and the prediction count are 0 |
| Scoring.NothingLabelled | gptsenpy/metrics/metrics.py:5-61 | with no labels all scores and the label count are 0 |
| Scoring.ExampleScores | gptsenpy/metrics/metrics.py:5-61 | a two-category example exports recall 1, precision 5/12, F1 10/17, 2 labels and 5 predictions, and ignores an unlisted category |
| Scoring.ExampleUnlabelledCategory | gptsenpy/metrics/metrics.py:5-61 | listing a predicted but unlabelled category too exports recall 1 (an average over all three listed categories would be 2/3), precision 5/18, F1 10/23, 2 labels and 7 predictions |

## Left out

- Reading files (`read_json`, `read_text`) is left out because it is file I/O. `check_duplicate_keys` takes the object's key/value pairs as a sequence.
- `clean_values`' `assert isinstance(values, dict)` is not modelled: the input type is already a map.
- The same goes for the `isinstance` assertions of `Metrics.__init__` (lines 79-82) and the one in `concat_json_result` (line 175).
- The `ValueError` branch of `Metrics.__get_value_if_none` is left out. Every call inside the class passes a value or a known attribute name, so it cannot be reached.
- Numbers are exact reals, not IEEE floats, so rounding in the averages and in F1 is not modelled.
- Lists and sets in an input hold only booleans, numbers and strings. A `None`, a nested list or a nested dictionary inside a list is not modelled: Python's `set(v)` keeps `None` as an element and raises `TypeError` on an unhashable item, and neither that element nor that `TypeError` path is part of this model.
- Set elements are tagged as booleans, numbers or strings. Python's `True == 1` and `hash(True) == hash(1)` conflation is not modelled, either in sets or in `Counter`.
- Lists are taken as multisets wherever their order cannot affect the result: in the accumulated lists of `concat_json_result` and in the order `list(set)` yields.
- Iteration order over dictionaries is free in the model. No result of the modelled code depends on it.
- `max` of an empty accumulated list raises in Python (a `[]` input value cleans to an empty set and appends nothing). The model returns `EmptyCountError` for it.
- `clean_values`' `ValueError` is `ShapeError`, the unsupported `vote_option` error is `VoteOptionError`, and the duplicate-key assertion is `DuplicateKeysError`.
- `label_category` is a map from category names to key lists; only its keys influence the result, as in the source.
- The PDF loader, tokenizer and prompt builder are not part of this model.
- The helpers the tests import (such as `categorize_dict_keys`) are not part of this model.
- The key registry of `concat_json_result` is a parameter of the specification; `ConcatJsonResult` fixes it to `DefaultKeys()`, and the lemmas hold for any registry.
