# NLI4CT evidence evaluation and pair transformation, in Dafny

This project models two pieces of armin, a toolkit for the NLI4CT task
(multi-evidence natural language inference over clinical trial reports).

- **The evidence evaluator.** `NLI4CTEvaluator.evaluate` walks the keys of a
  results object. For every statement it collects the predicted and gold
  "Primary_evidence_index" lists. For statements whose gold "Type" is
  "Comparison" it also collects the "Secondary_evidence_index" lists.
  `__compare` counts true positives, false positives and false negatives by
  membership tests, once over the primary lists and once over the secondary
  lists. The two triples are pooled and turned into micro-averaged precision,
  recall and F1.
- **The dataset transformer.** `JSONTransformer.transform` writes, for every
  dataset statement, one (statement, evidence sentence) record per sentence of
  the report section the statement refers to. A record's target is the
  lower-cased statement label when the sentence is gold evidence, and
  "neutral" otherwise. The secondary report is used only for "Comparison"
  statements.

Files:

- `common.dfy` (module `Common`): `Option`, `Result`, and the exceptions the
  source raises (`KeyError`, `ZeroDivisionError`, `CTRError`).
- `counting.dfy` (module `Counting`): the counting of `__compare`. It has a
  recursive specification `Tally` over aligned list pairs, its properties, and
  `Compare`, the nested loops as written.
- `scoring.dfy` (module `Scoring`): precision, recall and F1 over exact reals.
- `evaluation.dfy` (module `Evaluation`): the collection loop of `evaluate`
  (`CollectEvidence`, specified by `Collect`), the whole of `evaluate`
  (`Evaluate`, specified by `Metrics`), and its failure and exactness
  properties.
- `transform.dfy` (module `Transform`): the output file as a class
  `OutStream` whose chunk sequence the methods extend. It holds `_write_pairs`
  (`WritePairs`, specified by `Pairs`), the loop of `transform` (`WriteEntry`,
  `WriteDataset` and `Transform`, specified by `EntryRun`, `Emit` and
  `Output`), and the layout properties of the records and the file.

Parsed JSON is given as values:

- The gold standard is a `map` from statement id to `Record`.
- The results object and the dataset object are sequences of key/value
  entries, in the key order Python iterates them.
- The clinical-trial reports are a `map` from report id to a `map` from section
  id to the section's sentences.

Python exceptions are modelled as `Err` results, or as an `Option<Error>` next
to the output written before the exception.

Recall has no guard (armin/evaluation.py:84). Results without any gold
evidence, empty results among them, raise a ZeroDivisionError, and the model
keeps that.

## Model

| member | source | states |
|---|---|---|
| Counting.Compare | armin/evaluation.py:97-112 | The nested loops compute exactly the specification's counts. tp + fp is the number of predicted index occurrences at the first \|gold\| positions, and fn is at most the number of gold index occurrences. |
| Counting.TallyBounds | armin/evaluation.py:102-110 | Each predicted occurrence is tested once and lands in exactly one of tp and fp. fn never exceeds the total gold occurrences. |
| Counting.InPlusNotIn | armin/evaluation.py:103-107 | For one list pair, the "in" and "not in" counts of the predicted list add up to its length. |
| Counting.CountInIsPositions | armin/evaluation.py:103-105 | tp for one list pair is the number of positions of the predicted list whose value occurs in the gold list. Duplicates count per occurrence. |
| Counting.CountNotInIsPositions | armin/evaluation.py:108-110 | fn for one list pair is the length of the gold list minus the number of its positions whose value occurs in the predicted list. A missed gold index counts once per occurrence. |
| Counting.DuplicateCountsTwice | armin/evaluation.py:103-107 | A gold index predicted twice counts as two true positives and no false positive. |
| Counting.TallyAppend | armin/evaluation.py:102-110 | Counting is additive: the counts of a concatenation of aligned list pairs are the sums of the parts' counts. |
| Counting.TallyPrefix | armin/evaluation.py:102 | Predicted lists beyond the gold lists' length are never looked at. |
| Counting.TallyGoldEmpty | armin/evaluation.py:102-110 | tp + fn is 0 exactly when every gold list is empty. |
| Counting.PairGoldEmpty | armin/evaluation.py:103-110 | For one list pair, tp + fn is 0 exactly when the gold list is empty. |
| Counting.NotInPositive | armin/evaluation.py:106-107 | A predicted index absent from the gold list makes the "not in" count positive. |
| Counting.AllIn | armin/evaluation.py:103-107 | A predicted list whose members all occur in gold has no false positive, and every element is a true positive. |
| Counting.TallyExact | armin/evaluation.py:102-110 | When each predicted list has exactly the members of its gold list, fp = fn = 0 and tp is the number of predicted occurrences. |
| Scoring.Precision | armin/evaluation.py:80-83 | Precision is 0 when nothing was predicted. It lies in [0, 1], is 0 exactly when tp = 0, and is 1 exactly when tp > 0 and fp = 0. |
| Scoring.Recall | armin/evaluation.py:84 | Recall fails with a division by zero exactly when tp + fn = 0. Otherwise it lies in [0, 1], is 0 exactly when tp = 0, and is 1 exactly when fn = 0. |
| Scoring.Ratio | armin/evaluation.py:83-84 | A count ratio a / (a + b) lies in [0, 1], is 0 exactly when a = 0, and is 1 exactly when b = 0. |
| Scoring.F1 | armin/evaluation.py:86-89 | F1 is guarded to 0 when p + r = 0. For p and r in [0, 1] it lies in [0, 1]. For non-negative p and r it lies between min(p, r) and max(p, r), and it is 0 exactly when p or r is 0. For p and r in [0, 1] it is 1 exactly when both are 1. |
| Scoring.HarmonicMeanBounds | armin/evaluation.py:89 | For non-negative p and r, 2pr / (p + r) lies between min(p, r) and max(p, r). For such p and r it is 0 exactly when a factor is 0. For p and r in [0, 1] it is 1 exactly when both are 1. |
| Scoring.HarmonicMeanBetween | armin/evaluation.py:89 | For non-negative p and r, the harmonic mean lies between min(p, r) and max(p, r). |
| Scoring.OrderedHarmonicMean | armin/evaluation.py:89 | For 0 <= lo <= hi, the harmonic mean lies between lo and hi. |
| Scoring.HarmonicMeanZero | armin/evaluation.py:89 | For non-negative p and r, the harmonic mean is 0 exactly when p or r is 0. |
| Scoring.HarmonicMeanOne | armin/evaluation.py:89 | For p and r in [0, 1], the harmonic mean is 1 exactly when p = r = 1. |
| Scoring.Score | armin/evaluation.py:76-95 | The result fails with a division by zero exactly when tp + fn = 0. Otherwise all three metrics lie in [0, 1], F1 is 1 exactly when fp = fn = 0, and F1 is 0 exactly when tp = 0. |
| Evaluation.CollectSucceeds | armin/evaluation.py:66-71 | Collection succeeds exactly when every results key is in gold and every "Comparison" has both secondary lists. Otherwise it fails with a KeyError. |
| Evaluation.CollectShape | armin/evaluation.py:66-71 | A successful collection has one primary pair per results key, in order, with the predicted and gold lists of that key. It has one secondary pair per "Comparison" key, in order. |
| Evaluation.CollectPrimaryShape | armin/evaluation.py:66-68 | The primary lists get one pair per results key, in order: the key's predicted list and its gold list. |
| Evaluation.CollectSecondaryShape | armin/evaluation.py:69-71 | The secondary lists get one pair per "Comparison" key, in order: the key's predicted and gold secondary lists. |
| Evaluation.CollectErrorSticks | armin/evaluation.py:66-71 | The first failing lookup aborts the loop, and the run fails with that error. |
| Evaluation.CollectEvidence | armin/evaluation.py:61-71 | The collection loop as written computes `Collect`. It succeeds exactly when all keys resolve, and its list lengths are the number of keys and the number of "Comparison" keys. |
| Evaluation.Evaluate | armin/evaluation.py:45-95 | evaluate as written (collection, two calls to __compare, elementwise sum, scoring) returns `Metrics`. |
| Evaluation.PoolCounts | armin/evaluation.py:73-78 | __compare over the primary lists and over the secondary lists, summed elementwise, gives the pooled counts of the two categories. |
| Evaluation.MetricsOfCollected | armin/evaluation.py:61-95 | After a successful collection, the list lengths suit __compare, and evaluate returns the scores of the pooled counts of the collected lists. |
| Evaluation.ComparisonsMembers | armin/evaluation.py:69 | The secondary category holds exactly the results entries whose gold type is "Comparison". |
| Evaluation.GoldEvidenceCounted | armin/evaluation.py:73-84 | After a successful collection, recall divides by zero exactly when no evaluated statement has gold evidence. |
| Evaluation.EmptyGoldMeansNoEvidence | armin/evaluation.py:66-71 | When every collected gold list is empty, no evaluated statement has gold evidence. |
| Evaluation.NoEvidenceMeansEmptyGold | armin/evaluation.py:66-71 | When no evaluated statement has gold evidence, every collected gold list is empty. |
| Evaluation.MetricsFailures | armin/evaluation.py:66-84 | evaluate fails with a KeyError exactly when some key does not resolve. Otherwise it fails with a division by zero exactly when no statement has gold evidence, and succeeds exactly when some statement has. |
| Evaluation.EmptyResultsFail | armin/evaluation.py:61-84 | Empty results give a division by zero. |
| Evaluation.PerfectPrediction | armin/evaluation.py:73-89 | Predictions with exactly the gold members, where some gold list is non-empty, score F1 = precision = recall = 1. |
| Evaluation.CollectOneSameView | armin/evaluation.py:66-71 | One pass of the loop reads only the key, the gold type, the primary lists, and the secondary lists of "Comparison" statements. |
| Evaluation.CollectSameView | armin/evaluation.py:66-71 | The collected lists depend only on those parts of the two files. |
| Evaluation.SingleSecondaryIgnored | armin/evaluation.py:69-74 | Secondary lists of statements whose gold type is not "Comparison" never change what evaluate returns. |
| Transform.OutStream.constructor | armin/transform.py:62 | A freshly opened output file is empty. |
| Transform.OutStream.Write | armin/transform.py:63 | A write appends its chunk and changes nothing else. |
| Transform.PairsAt | armin/transform.py:114-135 | One record per sentence, in section order. Record i carries sentence i as evidence. Its target is the lower-cased label when i is an evidence index and "neutral" otherwise. uuid, section id, type and statement are copied unchanged. |
| Transform.PairsPointwise | armin/transform.py:114-135 | There is one record per sentence, and record i is exactly sentence i's record: the call's fields, the target chosen for index i, and sentence i as evidence. |
| Transform.OutOfRangeIndexesIgnored | armin/transform.py:115-123 | Only evidence indexes that name a sentence matter. An index at or beyond the section's end produces no record and changes no target. |
| Transform.ChunksAt | armin/transform.py:125-133 | Record i is written at chunk 2i, followed by ",\n" at chunk 2i + 1. |
| Transform.ChunksAppend | armin/transform.py:125-133 | Writing two record sequences one after the other writes their concatenation. |
| Transform.WritePairs | armin/transform.py:94-135 | _write_pairs as written (the loop with a running sentence number) appends exactly the records `Pairs` specifies, each followed by ",\n". |
| Transform.WriteSentence | armin/transform.py:115-133 | One pass of _write_pairs' loop writes the record of sentence `sentenceNumber`, with its target chosen by membership in the evidence indexes, followed by ",\n", and nothing else. |
| Transform.WritePairsStep | armin/transform.py:114-135 | After one more sentence, the records written are those of the sentences so far, and the text has grown by that record and ",\n". |
| Transform.PairsNext | armin/transform.py:114-135 | One more sentence adds its record after those of the sentences before it. |
| Transform.ChunksSnoc | armin/transform.py:125-133 | One more record adds its JSON and ",\n" to the text. |
| Transform.WriteEntry | armin/transform.py:66-91 | One pass of transform's loop appends the records of `EntryRun` and reports its exception. |
| Transform.WriteDataset | armin/transform.py:64-91 | transform's loop appends the records of every dataset entry in key order, up to the first exception, which it reports. |
| Transform.EmitNext | armin/transform.py:64-91 | One more iteration of the loop extends the run by that entry's records and exception. |
| Transform.EmitDone | armin/transform.py:64-91 | When the loop exits, having covered all entries or stopped on an exception, the partial run is the whole run. |
| Transform.Transform | armin/transform.py:55-92 | The file holds "[\n" and the records of the run, then "]\n" only when no exception was raised. The exception raised is the run's. |
| Transform.EmitStep | armin/transform.py:64-91 | Without an exception so far, one more entry adds its records after those already written. |
| Transform.EmitErrorSticks | armin/transform.py:64-91 | Once an exception is raised, later entries write nothing. |
| Transform.DocumentLayout | armin/transform.py:63-92 | The file starts with "[\n". Record i is at chunk 1 + 2i and is followed by ",\n", the last record included, which leaves a trailing comma. A completed run ends with "]\n". |
| Transform.EmitAppend | armin/transform.py:64-91 | Running over a concatenation of datasets runs over the first part and then, unless it raised, over the second. Records come out in key order. |
| Transform.EmitSnoc | armin/transform.py:64-91 | The last entry's records follow those of the entries before it, unless those raised. |
| Transform.EmitAppendStep | armin/transform.py:64-91 | Appending one more entry to the second part keeps the concatenation law. |
| Transform.EntryRunSucceeds | armin/transform.py:66-91 | An entry raises nothing exactly when its primary section can be read and, for a "Comparison" only, "Secondary_id" exists, the secondary section can be read, and "Secondary_evidence_index" exists. |
| Transform.EntryRecords | armin/transform.py:66-91 | An entry that raised nothing writes its primary section's records, labelled by "Primary_evidence_index". Only for a "Comparison" are these followed by its secondary section's records, labelled by "Secondary_evidence_index". |
| Transform.EntryRunFailures | armin/transform.py:68-91 | A missing primary report raises a CTRError and a missing primary section a KeyError, and neither writes anything. When a "Comparison" fails a secondary lookup, the primary records are already written, and the exception is that of the first failing lookup, in transform's order: "Secondary_id", the report, the section, then "Secondary_evidence_index". |

## Left out

- Transform.ReadSection stands in for `CTRReader.read_section` (armin/extractors/baseline.py:42-59) as a lookup in the parsed reports map. A missing report is a CTRError naming the report id rather than the file path, and a missing section is a KeyError. Its properties are stated through `EntryRunSucceeds` and `EntryRunFailures`.
- Loading and checking files is not modelled. That covers the existence checks and `json.load` in the constructors and in `evaluate`, `DatasetError` and `ResultsError`, CTR files holding invalid JSON, and `CTRReader`'s folder check. The model takes already parsed maps and sequences.
- Missing keys other than the ones modelled are not modelled. The modelled ones are the results key absent from gold, "Secondary_evidence_index" in `evaluate`, and "Secondary_id", "Secondary_evidence_index" and the report section in `transform`. A record lacking "Primary_evidence_index", "Type", "Section_id", "Primary_id", "Statement" or "Label" is excluded by the datatypes, which always carry these fields.
- Counting.Compare: requires the gold list of lists to be no longer than the predicted one. A longer gold list would raise an IndexError in `__compare`, and `evaluate` never passes one, because `CollectShape` gives equal lengths.
- Scoring.Score: the metrics are exact reals, not IEEE doubles. The fixture test that compares exact float values, and the data files it reads, are not part of this model.
- Transform.WritePairs: `label.lower()` is modelled by `Lower`, which lower-cases ASCII letters only. Python's full Unicode case mapping is not modelled.
- Transform.WritePairs: the JSON rendering of a record by `json.dumps` is not modelled. A record is written as one `Json` chunk and its ",\n" separator as a second `Text` chunk, instead of one concatenated string.
- The extractors (BM25, sentence embeddings, the ontology service) and the `task2.py` driver are not part of this model. They wrap libraries and remote services whose behaviour cannot be seen, and they compare floating-point scores.
- Closing the output file, and the `with` block's handling of an exception, are not modelled. After an exception, the file holds what was written before it.
