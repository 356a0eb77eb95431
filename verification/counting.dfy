/**
 * The tp/fp/fn counting of NLI4CTEvaluator.__compare (armin/evaluation.py).
 *
 * For aligned lists of predicted and gold evidence index lists, every
 * occurrence of a predicted index is a true positive when it is a member of
 * the gold list at the same position and a false positive otherwise; every
 * occurrence of a gold index that is not a member of the predicted list is a
 * false negative.  Duplicates count once per occurrence.
 */
module Counting {

  /** A (true positive, false positive, false negative) triple. */
  datatype Counts = Counts(tp: nat, fp: nat, fn: nat)

  const ZERO := Counts(0, 0, 0)

  /** Elementwise sum of two triples (micro-averaging pools counts this way). */
  function Add(a: Counts, b: Counts): Counts
  {
    Counts(a.tp + b.tp, a.fp + b.fp, a.fn + b.fn)
  }

  /** Number of occurrences in `xs` that are members of `ys`. */
  function CountIn(xs: seq<int>, ys: seq<int>): nat
  {
    if xs == [] then 0
    else CountIn(xs[..|xs| - 1], ys) + (if xs[|xs| - 1] in ys then 1 else 0)
  }

  /** Number of occurrences in `xs` that are not members of `ys`. */
  function CountNotIn(xs: seq<int>, ys: seq<int>): nat
  {
    if xs == [] then 0
    else CountNotIn(xs[..|xs| - 1], ys) + (if xs[|xs| - 1] !in ys then 1 else 0)
  }

  /** The counts one statement contributes: `predicted` against `gold`. */
  function PairCounts(predicted: seq<int>, gold: seq<int>): Counts
  {
    Counts(CountIn(predicted, gold), CountNotIn(predicted, gold), CountNotIn(gold, predicted))
  }

  /**
   * The pooled counts over the first |goldEv| positions, as __compare
   * accumulates them (its outer loop runs over the gold list).
   */
  function Tally(resultsEv: seq<seq<int>>, goldEv: seq<seq<int>>): Counts
    requires |goldEv| <= |resultsEv|
  {
    if goldEv == [] then ZERO
    else
      var n := |goldEv| - 1;
      Add(Tally(resultsEv, goldEv[..n]), PairCounts(resultsEv[n], goldEv[n]))
  }

  /** Total number of index occurrences in a list of index lists. */
  function Total(ev: seq<seq<int>>): nat
  {
    if ev == [] then 0 else Total(ev[..|ev| - 1]) + |ev[|ev| - 1]|
  }

  /** Positions of `xs` whose element is a member of `ys`. */
  function Positions(xs: seq<int>, ys: seq<int>): set<nat>
  {
    set j: nat | j < |xs| && xs[j] in ys
  }

  /**
   * Reference definition of the true-positive count: it is the number of
   * POSITIONS of the predicted list holding a gold member, not the number of
   * distinct values, so a repeated correct index counts once per occurrence.
   */
  lemma {:induction false} CountInIsPositions(xs: seq<int>, ys: seq<int>)
    ensures CountIn(xs, ys) == |Positions(xs, ys)|
  {
    if xs != [] {
      var n := |xs| - 1;
      CountInIsPositions(xs[..n], ys);
      var before := Positions(xs[..n], ys);
      if xs[n] in ys {
        assert Positions(xs, ys) == before + {n};
      } else {
        assert Positions(xs, ys) == before;
      }
    }
  }

  /**
   * The false-negative count of __compare, per occurrence: the gold positions
   * whose value is missing from the predicted list, so a repeated missed
   * gold index counts once per occurrence.
   */
  lemma CountNotInIsPositions(xs: seq<int>, ys: seq<int>)
    ensures CountNotIn(xs, ys) == |xs| - |Positions(xs, ys)|
  {
    CountInIsPositions(xs, ys);
    InPlusNotIn(xs, ys);
  }

  /** A predicted index given twice, present in gold, is two true positives. */
  lemma DuplicateCountsTwice(v: int, gold: seq<int>)
    requires v in gold
    ensures PairCounts([v, v], gold).tp == 2
    ensures PairCounts([v, v], gold).fp == 0
  {
    assert [v, v][..1] == [v];
    assert [v][..0] == [];
    assert CountIn([v], gold) == 1 && CountNotIn([v], gold) == 0;
  }

  /** Every predicted occurrence is either a true or a false positive, never both. */
  lemma {:induction false} InPlusNotIn(xs: seq<int>, ys: seq<int>)
    ensures CountIn(xs, ys) + CountNotIn(xs, ys) == |xs|
  {
    if xs != [] {
      InPlusNotIn(xs[..|xs| - 1], ys);
    }
  }

  /** tp + fp over all positions is the total number of predicted occurrences, and fn is bounded by the gold occurrences. */
  lemma {:induction false} TallyBounds(resultsEv: seq<seq<int>>, goldEv: seq<seq<int>>)
    requires |goldEv| <= |resultsEv|
    ensures Tally(resultsEv, goldEv).tp + Tally(resultsEv, goldEv).fp == Total(resultsEv[..|goldEv|])
    ensures Tally(resultsEv, goldEv).fn <= Total(goldEv)
  {
    if goldEv != [] {
      var n := |goldEv| - 1;
      TallyBounds(resultsEv, goldEv[..n]);
      InPlusNotIn(resultsEv[n], goldEv[n]);
      InPlusNotIn(goldEv[n], resultsEv[n]);
      assert resultsEv[..|goldEv|][..n] == resultsEv[..n];
    }
  }

  /** Counting is additive: the counts of a concatenation of aligned parts are the sum of the parts' counts. */
  lemma {:induction false} TallyAppend(r1: seq<seq<int>>, g1: seq<seq<int>>, r2: seq<seq<int>>, g2: seq<seq<int>>)
    requires |r1| == |g1| && |g2| <= |r2|
    ensures Tally(r1 + r2, g1 + g2) == Add(Tally(r1, g1), Tally(r2, g2))
    decreases |g2|
  {
    var r, g := r1 + r2, g1 + g2;
    if g2 == [] {
      assert g == g1;
      assert r[..|g1|] == r1[..|g1|];
      TallyPrefix(r, r1, g1);
    } else {
      var n := |g2| - 1;
      var m := |g1| + n;
      TallyAppend(r1, g1, r2, g2[..n]);
      assert g[..m] == g1 + g2[..n];
      assert r[m] == r2[n] && g[m] == g2[n];
      assert Tally(r, g) == Add(Tally(r, g[..m]), PairCounts(r[m], g[m]));
    }
  }

  /** Positions beyond the gold list do not matter. */
  lemma {:induction false} TallyPrefix(r: seq<seq<int>>, r': seq<seq<int>>, g: seq<seq<int>>)
    requires |g| <= |r| && |g| <= |r'| && r[..|g|] == r'[..|g|]
    ensures Tally(r, g) == Tally(r', g)
  {
    if g != [] {
      var n := |g| - 1;
      assert r[n] == r[..|g|][n];
      TallyPrefix(r, r', g[..n]);
    }
  }

  /** Every list in `ev` is empty. */
  predicate AllEmpty(ev: seq<seq<int>>)
  {
    forall i :: 0 <= i < |ev| ==> ev[i] == []
  }

  lemma AllEmptySnoc(ev: seq<seq<int>>)
    requires ev != []
    ensures AllEmpty(ev) <==> AllEmpty(ev[..|ev| - 1]) && ev[|ev| - 1] == []
  {
    var n := |ev| - 1;
    if AllEmpty(ev[..n]) && ev[n] == [] {
      forall i | 0 <= i < |ev| ensures ev[i] == [] {
        if i < n { assert ev[i] == ev[..n][i]; }
      }
    }
  }

  /** tp + fn is zero exactly when every gold list at the counted positions is empty. */
  lemma {:induction false} TallyGoldEmpty(resultsEv: seq<seq<int>>, goldEv: seq<seq<int>>)
    requires |goldEv| <= |resultsEv|
    ensures Tally(resultsEv, goldEv).tp + Tally(resultsEv, goldEv).fn == 0 <==> AllEmpty(goldEv)
  {
    if goldEv != [] {
      var n := |goldEv| - 1;
      TallyGoldEmpty(resultsEv, goldEv[..n]);
      PairGoldEmpty(resultsEv[n], goldEv[n]);
      AllEmptySnoc(goldEv);
    }
  }

  /** For one statement, tp + fn is zero exactly when the gold list is empty. */
  lemma PairGoldEmpty(predicted: seq<int>, gold: seq<int>)
    ensures PairCounts(predicted, gold).tp + PairCounts(predicted, gold).fn == 0 <==> gold == []
  {
    if gold == [] {
      CountInIsPositions(predicted, gold);
      assert Positions(predicted, gold) == {};
    } else {
      var v := gold[|gold| - 1];
      if v in predicted {
        var j :| 0 <= j < |predicted| && predicted[j] == v;
        CountInIsPositions(predicted, gold);
        assert j in Positions(predicted, gold);
      } else {
        NotInPositive(gold, predicted, |gold| - 1);
      }
    }
  }

  /** One occurrence outside `ys` makes the not-in count positive. */
  lemma {:induction false} NotInPositive(xs: seq<int>, ys: seq<int>, k: nat)
    requires k < |xs| && xs[k] !in ys
    ensures CountNotIn(xs, ys) > 0
  {
    if k < |xs| - 1 {
      NotInPositive(xs[..|xs| - 1], ys, k);
    }
  }

  /** Two lists have the same members (order and multiplicity aside). */
  predicate SameMembers(xs: seq<int>, ys: seq<int>)
  {
    (forall v :: v in xs ==> v in ys) && (forall v :: v in ys ==> v in xs)
  }

  /** When `xs`'s members all occur in `ys`, every occurrence of `xs` counts as "in". */
  lemma {:induction false} AllIn(xs: seq<int>, ys: seq<int>)
    requires forall v :: v in xs ==> v in ys
    ensures CountIn(xs, ys) == |xs| && CountNotIn(xs, ys) == 0
  {
    if xs != [] {
      var n := |xs| - 1;
      var last := xs[n];
      assert last in xs;
      assert last in ys;
      AllIn(xs[..n], ys);
    }
  }

  /** Exact match at every position: no false positives, no false negatives, and tp is every predicted occurrence. */
  lemma {:induction false} TallyExact(resultsEv: seq<seq<int>>, goldEv: seq<seq<int>>)
    requires |goldEv| == |resultsEv|
    requires forall i :: 0 <= i < |goldEv| ==> SameMembers(resultsEv[i], goldEv[i])
    ensures Tally(resultsEv, goldEv) == Counts(Total(resultsEv), 0, 0)
  {
    if goldEv != [] {
      var n := |goldEv| - 1;
      TallyExact(resultsEv[..n], goldEv[..n]);
      TallyPrefix(resultsEv, resultsEv[..n], goldEv[..n]);
      AllIn(resultsEv[n], goldEv[n]);
      AllIn(goldEv[n], resultsEv[n]);
    }
  }

  /**
   * __compare, as written: nested index loops that bump three counters.
   * Its outer loop runs over the gold list and indexes the predicted list
   * at the same position, so the predicted list must be at least as long.
   */
  method Compare(resultsEv: seq<seq<int>>, goldEv: seq<seq<int>>) returns (tp: nat, fp: nat, fn: nat)
    requires |goldEv| <= |resultsEv|
    ensures Counts(tp, fp, fn) == Tally(resultsEv, goldEv)
    ensures tp + fp == Total(resultsEv[..|goldEv|])
    ensures fn <= Total(goldEv)
  {
    tp, fp, fn := 0, 0, 0;
    for i := 0 to |goldEv|
      invariant Counts(tp, fp, fn) == Tally(resultsEv, goldEv[..i])
    {
      var predicted, gold := resultsEv[i], goldEv[i];
      ghost var before := Counts(tp, fp, fn);
      for j := 0 to |predicted|
        invariant tp == before.tp + CountIn(predicted[..j], gold)
        invariant fp == before.fp + CountNotIn(predicted[..j], gold)
        invariant fn == before.fn
      {
        assert predicted[..j + 1][..j] == predicted[..j];
        if predicted[j] in gold {
          tp := tp + 1;
        }
        if predicted[j] !in gold {
          fp := fp + 1;
        }
      }
      assert predicted[..|predicted|] == predicted;
      for j := 0 to |gold|
        invariant tp == before.tp + CountIn(predicted, gold)
        invariant fp == before.fp + CountNotIn(predicted, gold)
        invariant fn == before.fn + CountNotIn(gold[..j], predicted)
      {
        assert gold[..j + 1][..j] == gold[..j];
        if gold[j] !in predicted {
          fn := fn + 1;
        }
      }
      assert gold[..|gold|] == gold;
      assert goldEv[..i + 1][..i] == goldEv[..i];
    }
    assert goldEv[..|goldEv|] == goldEv;
    TallyBounds(resultsEv, goldEv);
  }
}
