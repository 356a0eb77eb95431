/**
 * NLI4CTEvaluator.evaluate (armin/evaluation.py): walk the results in key
 * order, collect the predicted and gold primary evidence lists of every
 * statement and, for statements whose gold type is "Comparison", the
 * secondary ones too; count each category with __compare, pool the counts
 * and score them.
 *
 * Loading the gold file (the constructor) and the results file is I/O and is
 * not modelled: the gold standard is an already parsed map and the results
 * file an already parsed object, kept as its key/record pairs in file order.
 */
module Evaluation {
  import opened Common
  import opened Counting
  import opened Scoring

  const COMPARISON := "Comparison"
  const SECONDARY_KEY := "Secondary_evidence_index"

  /**
   * One statement's record: its "Type", its "Primary_evidence_index" and,
   * when the key is present, its "Secondary_evidence_index".
   */
  datatype Record = Record(kind: string, primary: seq<int>, secondary: Option<seq<int>>)

  /** One key of the results object with its record. */
  datatype Entry = Entry(uuid: string, record: Record)

  type Gold = map<string, Record>

  /** The four lists evaluate builds: results_p, gold_p, results_s, gold_s. */
  datatype Lists = Lists(resultsP: seq<seq<int>>, goldP: seq<seq<int>>, resultsS: seq<seq<int>>, goldS: seq<seq<int>>)

  /** One pass of the collection loop over `e`, appending to `ls`; fails like the dictionary lookups do. */
  function CollectOne(gold: Gold, ls: Lists, e: Entry): Result<Lists, Error>
  {
    if e.uuid !in gold then Err(KeyError(e.uuid))
    else
      var g := gold[e.uuid];
      var primary := ls.(goldP := ls.goldP + [g.primary], resultsP := ls.resultsP + [e.record.primary]);
      if g.kind != COMPARISON then Ok(primary)
      else if g.secondary.None? || e.record.secondary.None? then Err(KeyError(SECONDARY_KEY))
      else Ok(primary.(goldS := ls.goldS + [g.secondary.value], resultsS := ls.resultsS + [e.record.secondary.value]))
  }

  /** The lists after the collection loop has run over `results`; the first failing lookup aborts it. */
  function Collect(gold: Gold, results: seq<Entry>): Result<Lists, Error>
  {
    if results == [] then Ok(Lists([], [], [], []))
    else
      match Collect(gold, results[..|results| - 1])
      case Err(e) => Err(e)
      case Ok(ls) => CollectOne(gold, ls, results[|results| - 1])
  }

  /** The lookups of one entry succeed: its key is in gold, and a "Comparison" has both secondary lists. */
  predicate Resolvable(gold: Gold, e: Entry)
  {
    && e.uuid in gold
    && (gold[e.uuid].kind == COMPARISON ==> gold[e.uuid].secondary.Some? && e.record.secondary.Some?)
  }

  predicate AllResolvable(gold: Gold, results: seq<Entry>)
  {
    forall i :: 0 <= i < |results| ==> Resolvable(gold, results[i])
  }

  /** The entries whose gold type is "Comparison", in results order. */
  function Comparisons(gold: Gold, results: seq<Entry>): seq<Entry>
  {
    if results == [] then []
    else
      var e := results[|results| - 1];
      Comparisons(gold, results[..|results| - 1])
        + (if e.uuid in gold && gold[e.uuid].kind == COMPARISON then [e] else [])
  }

  /** The primary lists: one pair per results key, in results order. */
  predicate PrimaryCollected(gold: Gold, results: seq<Entry>, ls: Lists)
  {
    && |ls.resultsP| == |ls.goldP| == |results|
    && (forall i :: 0 <= i < |results| ==> ls.resultsP[i] == results[i].record.primary)
    && (forall i :: 0 <= i < |results| ==>
          results[i].uuid in gold && ls.goldP[i] == gold[results[i].uuid].primary)
  }

  /** The secondary lists: one pair per "Comparison" entry, in results order. */
  predicate SecondaryCollected(gold: Gold, cs: seq<Entry>, ls: Lists)
  {
    && |ls.resultsS| == |ls.goldS| == |cs|
    && (forall i :: 0 <= i < |cs| ==> cs[i].record.secondary == Some(ls.resultsS[i]))
    && (forall i :: 0 <= i < |cs| ==>
          cs[i].uuid in gold && gold[cs[i].uuid].kind == COMPARISON && gold[cs[i].uuid].secondary == Some(ls.goldS[i]))
  }

  lemma AllResolvableSnoc(gold: Gold, results: seq<Entry>)
    requires results != []
    ensures AllResolvable(gold, results)
        <==> AllResolvable(gold, results[..|results| - 1]) && Resolvable(gold, results[|results| - 1])
  {
    var n := |results| - 1;
    if AllResolvable(gold, results[..n]) && Resolvable(gold, results[n]) {
      forall i | 0 <= i < |results| ensures Resolvable(gold, results[i]) {
        if i < n { assert results[i] == results[..n][i]; }
      }
    }
  }

  /**
   * The collection succeeds exactly when every entry is resolvable (so the
   * results keys are a subset of the gold keys); otherwise it fails with a
   * KeyError.
   */
  lemma {:induction false} CollectSucceeds(gold: Gold, results: seq<Entry>)
    ensures Collect(gold, results).Ok? <==> AllResolvable(gold, results)
    ensures Collect(gold, results).Err? ==> Collect(gold, results).error.KeyError?
  {
    if results != [] {
      CollectSucceeds(gold, results[..|results| - 1]);
      AllResolvableSnoc(gold, results);
    }
  }

  /**
   * A successful collection yields one primary pair per results key, in
   * order, and one secondary pair per entry whose gold type is
   * "Comparison", in order; the entries of other types contribute nothing
   * to the secondary lists.
   */
  lemma CollectShape(gold: Gold, results: seq<Entry>)
    requires Collect(gold, results).Ok?
    ensures PrimaryCollected(gold, results, Collect(gold, results).value)
    ensures SecondaryCollected(gold, Comparisons(gold, results), Collect(gold, results).value)
  {
    CollectPrimaryShape(gold, results);
    CollectSecondaryShape(gold, results);
  }

  lemma {:induction false} CollectPrimaryShape(gold: Gold, results: seq<Entry>)
    requires Collect(gold, results).Ok?
    ensures PrimaryCollected(gold, results, Collect(gold, results).value)
  {
    if results != [] {
      var n := |results| - 1;
      var prefix := results[..n];
      CollectPrimaryShape(gold, prefix);
      var ls := Collect(gold, prefix).value;
      var ls' := Collect(gold, results).value;
      assert ls' == CollectOne(gold, ls, results[n]).value;
      assert ls'.resultsP == ls.resultsP + [results[n].record.primary];
      assert ls'.goldP == ls.goldP + [gold[results[n].uuid].primary];
      forall i | 0 <= i < |results|
        ensures ls'.resultsP[i] == results[i].record.primary
        ensures results[i].uuid in gold && ls'.goldP[i] == gold[results[i].uuid].primary
      {
        if i < n { assert results[i] == prefix[i]; }
      }
    }
  }

  lemma {:induction false} CollectSecondaryShape(gold: Gold, results: seq<Entry>)
    requires Collect(gold, results).Ok?
    ensures SecondaryCollected(gold, Comparisons(gold, results), Collect(gold, results).value)
  {
    if results != [] {
      var n := |results| - 1;
      var prefix := results[..n];
      CollectSecondaryShape(gold, prefix);
      var ls := Collect(gold, prefix).value;
      var ls' := Collect(gold, results).value;
      var e := results[n];
      assert ls' == CollectOne(gold, ls, e).value;
      var cs := Comparisons(gold, prefix);
      if gold[e.uuid].kind == COMPARISON {
        assert Comparisons(gold, results) == cs + [e];
        assert ls'.resultsS == ls.resultsS + [e.record.secondary.value];
        assert ls'.goldS == ls.goldS + [gold[e.uuid].secondary.value];
      } else {
        assert Comparisons(gold, results) == cs;
        assert ls'.resultsS == ls.resultsS && ls'.goldS == ls.goldS;
      }
    }
  }

  /**
   * The collection loop of evaluate, as written: one pass per results key,
   * appending to the four lists.
   */
  method CollectEvidence(gold: Gold, results: seq<Entry>) returns (r: Result<Lists, Error>)
    ensures r == Collect(gold, results)
    ensures r.Ok? <==> AllResolvable(gold, results)
    ensures r.Ok? ==> |r.value.resultsP| == |r.value.goldP| == |results|
    ensures r.Ok? ==> |r.value.resultsS| == |r.value.goldS| == |Comparisons(gold, results)|
  {
    var resultsP, goldP, resultsS, goldS := [], [], [], [];
    for i := 0 to |results|
      invariant Collect(gold, results[..i]) == Ok(Lists(resultsP, goldP, resultsS, goldS))
    {
      var e := results[i];
      assert results[..i + 1][..i] == results[..i];
      if e.uuid !in gold {
        r := Err(KeyError(e.uuid));
        assert Collect(gold, results[..i + 1]) == r;
        CollectErrorSticks(gold, results, i + 1);
        CollectSucceeds(gold, results);
        return;
      }
      var g := gold[e.uuid];
      goldP := goldP + [g.primary];
      resultsP := resultsP + [e.record.primary];
      if g.kind == COMPARISON {
        if g.secondary.None? || e.record.secondary.None? {
          r := Err(KeyError(SECONDARY_KEY));
          assert Collect(gold, results[..i + 1]) == r;
          CollectErrorSticks(gold, results, i + 1);
          CollectSucceeds(gold, results);
          return;
        }
        goldS := goldS + [g.secondary.value];
        resultsS := resultsS + [e.record.secondary.value];
      }
    }
    assert results[..|results|] == results;
    r := Ok(Lists(resultsP, goldP, resultsS, goldS));
    CollectSucceeds(gold, results);
    CollectShape(gold, results);
  }

  /** Once the loop has failed on a prefix, the whole run fails with the same error. */
  lemma {:induction false} CollectErrorSticks(gold: Gold, results: seq<Entry>, k: nat)
    requires k <= |results| && Collect(gold, results[..k]).Err?
    ensures Collect(gold, results) == Collect(gold, results[..k])
    decreases |results| - k
  {
    if k < |results| {
      assert results[..k + 1][..k] == results[..k];
      CollectErrorSticks(gold, results, k + 1);
    } else {
      assert results[..k] == results;
    }
  }

  /** The pooled counts of a successful collection: primary and secondary triples summed elementwise. */
  function Pooled(ls: Lists): Counts
    requires |ls.goldP| <= |ls.resultsP| && |ls.goldS| <= |ls.resultsS|
  {
    Add(Tally(ls.resultsP, ls.goldP), Tally(ls.resultsS, ls.goldS))
  }

  /** What evaluate returns for a parsed gold map and parsed results, or the exception it raises. */
  function Metrics(gold: Gold, results: seq<Entry>): Result<Scores, Error>
  {
    match Collect(gold, results)
    case Err(e) => Err(e)
    case Ok(ls) =>
      CollectShape(gold, results);
      Score(Pooled(ls))
  }

  /**
   * evaluate, as written: the collection loop, __compare over the primary
   * lists and over the secondary lists, the elementwise sum and the scores.
   */
  method Evaluate(gold: Gold, results: seq<Entry>) returns (r: Result<Scores, Error>)
    ensures r == Metrics(gold, results)
  {
    var lists := CollectEvidence(gold, results);
    if lists.Err? {
      return Err(lists.error);
    }
    var ls := lists.value;
    MetricsOfCollected(gold, results, ls);
    var tp, fp, fn := PoolCounts(ls);
    r := Score(Counts(tp, fp, fn));
  }

  /** __compare over the primary lists and over the secondary lists, summed elementwise. */
  method PoolCounts(ls: Lists) returns (tp: nat, fp: nat, fn: nat)
    requires |ls.goldP| <= |ls.resultsP| && |ls.goldS| <= |ls.resultsS|
    ensures Counts(tp, fp, fn) == Pooled(ls)
  {
    var tpP, fpP, fnP := Compare(ls.resultsP, ls.goldP);
    var tpS, fpS, fnS := Compare(ls.resultsS, ls.goldS);
    tp, fp, fn := tpP + tpS, fpP + fpS, fnP + fnS;
  }

  /** After a successful collection, evaluate scores the pooled counts of the collected lists. */
  lemma MetricsOfCollected(gold: Gold, results: seq<Entry>, ls: Lists)
    requires Collect(gold, results) == Ok(ls)
    ensures |ls.goldP| <= |ls.resultsP| && |ls.goldS| <= |ls.resultsS|
    ensures Metrics(gold, results) == Score(Pooled(ls))
  {
    CollectShape(gold, results);
  }

  /** The entry has gold evidence: a non-empty gold primary list, or a non-empty gold secondary list for a "Comparison". */
  predicate HasGoldEvidence(gold: Gold, e: Entry)
  {
    && e.uuid in gold
    && (|| gold[e.uuid].primary != []
        || (gold[e.uuid].kind == COMPARISON && gold[e.uuid].secondary.Some? && gold[e.uuid].secondary.value != []))
  }

  lemma {:induction false} ComparisonsMembers(gold: Gold, results: seq<Entry>, e: Entry)
    ensures e in Comparisons(gold, results) <==> e in results && e.uuid in gold && gold[e.uuid].kind == COMPARISON
  {
    if results != [] {
      var n := |results| - 1;
      ComparisonsMembers(gold, results[..n], e);
      assert results == results[..n] + [results[n]];
    }
  }

  /** After a successful collection, recall divides by zero exactly when no entry has gold evidence. */
  lemma GoldEvidenceCounted(gold: Gold, results: seq<Entry>)
    requires Collect(gold, results).Ok?
    ensures Metrics(gold, results).Err? <==> forall i :: 0 <= i < |results| ==> !HasGoldEvidence(gold, results[i])
    ensures Metrics(gold, results).Err? ==> Metrics(gold, results).error == ZeroDivisionError
  {
    var ls := Collect(gold, results).value;
    CollectShape(gold, results);
    assert Metrics(gold, results) == Score(Pooled(ls));
    TallyGoldEmpty(ls.resultsP, ls.goldP);
    TallyGoldEmpty(ls.resultsS, ls.goldS);
    if AllEmpty(ls.goldP) && AllEmpty(ls.goldS) {
      EmptyGoldMeansNoEvidence(gold, results);
    }
    if forall i :: 0 <= i < |results| ==> !HasGoldEvidence(gold, results[i]) {
      NoEvidenceMeansEmptyGold(gold, results);
    }
  }

  /** Empty collected gold lists mean that no evaluated statement has gold evidence. */
  lemma EmptyGoldMeansNoEvidence(gold: Gold, results: seq<Entry>)
    requires Collect(gold, results).Ok?
    requires AllEmpty(Collect(gold, results).value.goldP) && AllEmpty(Collect(gold, results).value.goldS)
    ensures forall i :: 0 <= i < |results| ==> !HasGoldEvidence(gold, results[i])
  {
    var ls := Collect(gold, results).value;
    var cs := Comparisons(gold, results);
    CollectShape(gold, results);
    forall i | 0 <= i < |results| ensures !HasGoldEvidence(gold, results[i]) {
      var e := results[i];
      assert ls.goldP[i] == [];
      if gold[e.uuid].kind == COMPARISON {
        ComparisonsMembers(gold, results, e);
        var k :| 0 <= k < |cs| && cs[k] == e;
        assert ls.goldS[k] == [];
      }
    }
  }

  /** Without gold evidence in any evaluated statement, every collected gold list is empty. */
  lemma NoEvidenceMeansEmptyGold(gold: Gold, results: seq<Entry>)
    requires Collect(gold, results).Ok?
    requires forall i :: 0 <= i < |results| ==> !HasGoldEvidence(gold, results[i])
    ensures AllEmpty(Collect(gold, results).value.goldP) && AllEmpty(Collect(gold, results).value.goldS)
  {
    var ls := Collect(gold, results).value;
    var cs := Comparisons(gold, results);
    CollectShape(gold, results);
    forall i | 0 <= i < |ls.goldP| ensures ls.goldP[i] == [] {
      assert !HasGoldEvidence(gold, results[i]);
    }
    forall k | 0 <= k < |ls.goldS| ensures ls.goldS[k] == [] {
      ComparisonsMembers(gold, results, cs[k]);
      var i :| 0 <= i < |results| && results[i] == cs[k];
      assert !HasGoldEvidence(gold, results[i]);
    }
  }

  /**
   * evaluate fails exactly in two ways: with a KeyError when some results
   * key is absent from gold (or a "Comparison" lacks a secondary list), and
   * otherwise with a division by zero exactly when no evaluated statement
   * has any gold evidence.
   */
  lemma MetricsFailures(gold: Gold, results: seq<Entry>)
    ensures !AllResolvable(gold, results) ==> Metrics(gold, results).Err? && Metrics(gold, results).error.KeyError?
    ensures AllResolvable(gold, results) ==>
      (Metrics(gold, results) == Err(ZeroDivisionError) <==> forall i :: 0 <= i < |results| ==> !HasGoldEvidence(gold, results[i]))
    ensures AllResolvable(gold, results) ==>
      (Metrics(gold, results).Ok? <==> exists i :: 0 <= i < |results| && HasGoldEvidence(gold, results[i]))
  {
    CollectSucceeds(gold, results);
    if AllResolvable(gold, results) {
      GoldEvidenceCounted(gold, results);
    }
  }

  /** Empty results collect nothing, so recall divides by zero. */
  lemma EmptyResultsFail(gold: Gold)
    ensures Metrics(gold, []) == Err(ZeroDivisionError)
  {
  }

  /** Every predicted list has exactly the members of its gold list, in both categories. */
  predicate ExactMatch(gold: Gold, e: Entry)
    requires Resolvable(gold, e)
  {
    && SameMembers(e.record.primary, gold[e.uuid].primary)
    && (gold[e.uuid].kind == COMPARISON ==> SameMembers(e.record.secondary.value, gold[e.uuid].secondary.value))
  }

  /** Exact predictions with some gold evidence score precision = recall = F1 = 1. */
  lemma PerfectPrediction(gold: Gold, results: seq<Entry>)
    requires AllResolvable(gold, results)
    requires forall i :: 0 <= i < |results| ==> ExactMatch(gold, results[i])
    requires exists i :: 0 <= i < |results| && HasGoldEvidence(gold, results[i])
    ensures Metrics(gold, results) == Ok(Scores(1.0, 1.0, 1.0))
  {
    CollectSucceeds(gold, results);
    MetricsFailures(gold, results);
    var ls := Collect(gold, results).value;
    var cs := Comparisons(gold, results);
    CollectShape(gold, results);
    forall i | 0 <= i < |ls.goldP| ensures SameMembers(ls.resultsP[i], ls.goldP[i]) {
      assert ExactMatch(gold, results[i]);
    }
    forall k | 0 <= k < |ls.goldS| ensures SameMembers(ls.resultsS[k], ls.goldS[k]) {
      ComparisonsMembers(gold, results, cs[k]);
      var i :| 0 <= i < |results| && results[i] == cs[k];
      assert ExactMatch(gold, results[i]);
    }
    TallyExact(ls.resultsP, ls.goldP);
    TallyExact(ls.resultsS, ls.goldS);
  }

  /** Two gold maps that agree on keys, types, primary lists, and secondary lists of "Comparison" records. */
  predicate SameGoldView(gold: Gold, gold': Gold)
  {
    && gold.Keys == gold'.Keys
    && forall k :: k in gold ==>
         && gold[k].kind == gold'[k].kind
         && gold[k].primary == gold'[k].primary
         && (gold[k].kind == COMPARISON ==> gold[k].secondary == gold'[k].secondary)
  }

  /** Two results entries that agree on key, primary list, and secondary list when gold says "Comparison". */
  predicate SameEntryView(gold: Gold, e: Entry, e': Entry)
  {
    && e.uuid == e'.uuid
    && e.record.primary == e'.record.primary
    && (e.uuid in gold && gold[e.uuid].kind == COMPARISON ==> e.record.secondary == e'.record.secondary)
  }

  /** One pass of the loop sees only the parts of the records the two views share. */
  lemma CollectOneSameView(gold: Gold, gold': Gold, ls: Lists, e: Entry, e': Entry)
    requires SameGoldView(gold, gold') && SameEntryView(gold, e, e')
    ensures CollectOne(gold, ls, e) == CollectOne(gold', ls, e')
  {
  }

  lemma {:induction false} CollectSameView(gold: Gold, gold': Gold, results: seq<Entry>, results': seq<Entry>)
    requires SameGoldView(gold, gold')
    requires |results| == |results'|
    requires forall i :: 0 <= i < |results| ==> SameEntryView(gold, results[i], results'[i])
    ensures Collect(gold, results) == Collect(gold', results')
  {
    if results != [] {
      var n := |results| - 1;
      CollectSameView(gold, gold', results[..n], results'[..n]);
      match Collect(gold, results[..n])
      case Err(_) =>
      case Ok(ls) => CollectOneSameView(gold, gold', ls, results[n], results'[n]);
    }
  }

  /**
   * A statement whose gold type is not "Comparison" never contributes to the
   * secondary category: its secondary lists, in either file, and the type
   * written in the results file, do not change what evaluate returns.
   */
  lemma SingleSecondaryIgnored(gold: Gold, gold': Gold, results: seq<Entry>, results': seq<Entry>)
    requires SameGoldView(gold, gold')
    requires |results| == |results'|
    requires forall i :: 0 <= i < |results| ==> SameEntryView(gold, results[i], results'[i])
    ensures Metrics(gold, results) == Metrics(gold', results')
  {
    CollectSameView(gold, gold', results, results');
  }
}
