/**
 * The pure arithmetic at the end of NLI4CTEvaluator.evaluate
 * (armin/evaluation.py): micro-averaged precision, recall and F1 from pooled
 * counts, computed exactly over the reals.
 */
module Scoring {
  import opened Common
  import opened Counting

  datatype Scores = Scores(f1: real, precision: real, recall: real)

  function Min(a: real, b: real): real { if a <= b then a else b }
  function Max(a: real, b: real): real { if a <= b then b else a }

  /** tp / (tp + fp), guarded: nothing predicted gives 0. */
  function Precision(c: Counts): (p: real)
    ensures 0.0 <= p <= 1.0
    ensures p == 0.0 <==> c.tp == 0
    ensures p == 1.0 <==> c.tp > 0 && c.fp == 0
  {
    if c.tp + c.fp == 0 then 0.0
    else
      Ratio(c.tp, c.fp);
      c.tp as real / (c.tp + c.fp) as real
  }

  /** tp / (tp + fn), unguarded: no gold evidence at all is a division by zero. */
  function Recall(c: Counts): (r: Result<real, Error>)
    ensures r.Err? <==> c.tp + c.fn == 0
    ensures r.Err? ==> r.error == ZeroDivisionError
    ensures r.Ok? ==> 0.0 <= r.value <= 1.0
    ensures r.Ok? ==> (r.value == 0.0 <==> c.tp == 0)
    ensures r.Ok? ==> (r.value == 1.0 <==> c.fn == 0)
  {
    if c.tp + c.fn == 0 then Err(ZeroDivisionError)
    else
      Ratio(c.tp, c.fn);
      Ok(c.tp as real / (c.tp + c.fn) as real)
  }

  /** a / (a + b) for counts is a fraction in [0, 1]: 0 exactly when a is, 1 exactly when b is. */
  lemma Ratio(a: nat, b: nat)
    requires a + b > 0
    ensures var q := a as real / (a + b) as real;
      && 0.0 <= q <= 1.0
      && (q == 0.0 <==> a == 0)
      && (q == 1.0 <==> b == 0)
  {
    var d := (a + b) as real;
    var q := a as real / d;
    assert q * d == a as real;
    CancelFactor(0.0, q, d);
    CancelFactor(q, 1.0, d);
    if a == 0 {
      ZeroProduct(q, d);
    }
    if b == 0 {
      assert (q - 1.0) * d == 0.0;
      ZeroProduct(q - 1.0, d);
    }
  }

  /** The harmonic mean of precision and recall, guarded: 0 when both are 0. */
  function F1(p: real, r: real): (f: real)
    ensures 0.0 <= p <= 1.0 && 0.0 <= r <= 1.0 ==> 0.0 <= f <= 1.0
    ensures 0.0 <= p && 0.0 <= r ==> Min(p, r) <= f <= Max(p, r)
    ensures 0.0 <= p && 0.0 <= r ==> (f == 0.0 <==> p == 0.0 || r == 0.0)
    ensures 0.0 <= p <= 1.0 && 0.0 <= r <= 1.0 ==> (f == 1.0 <==> p == 1.0 && r == 1.0)
  {
    if p + r == 0.0 then 0.0
    else
      var f := 2.0 * (p * r) / (p + r);
      HarmonicMeanBounds(p, r, f);
      f
  }

  lemma HarmonicMeanBounds(p: real, r: real, f: real)
    requires p + r != 0.0
    requires f * (p + r) == 2.0 * (p * r)
    ensures 0.0 <= p && 0.0 <= r ==> Min(p, r) <= f <= Max(p, r)
    ensures 0.0 <= p && 0.0 <= r ==> (f == 0.0 <==> p == 0.0 || r == 0.0)
    ensures 0.0 <= p <= 1.0 && 0.0 <= r <= 1.0 ==> (f == 1.0 <==> p == 1.0 && r == 1.0)
  {
    if 0.0 <= p && 0.0 <= r {
      HarmonicMeanBetween(p, r, f);
      HarmonicMeanZero(p, r, f);
      if p <= 1.0 && r <= 1.0 {
        HarmonicMeanOne(p, r, f);
      }
    }
  }

  /** The harmonic mean lies between its arguments. */
  lemma HarmonicMeanBetween(p: real, r: real, f: real)
    requires 0.0 <= p && 0.0 <= r && p + r > 0.0
    requires f * (p + r) == 2.0 * (p * r)
    ensures Min(p, r) <= f <= Max(p, r)
  {
    if p <= r {
      OrderedHarmonicMean(p, r, f);
    } else {
      assert f * (r + p) == 2.0 * (r * p);
      OrderedHarmonicMean(r, p, f);
    }
  }

  /** lo * s <= 2 lo hi <= hi * s for s = lo + hi, then cancel s. */
  lemma OrderedHarmonicMean(lo: real, hi: real, f: real)
    requires 0.0 <= lo <= hi && lo + hi > 0.0
    requires f * (lo + hi) == 2.0 * (lo * hi)
    ensures lo <= f <= hi
  {
    var s := lo + hi;
    NonNegativeProduct(lo, hi - lo);
    NonNegativeProduct(hi, hi - lo);
    assert f * s - lo * s == lo * (hi - lo) by {
      assert lo * s == lo * lo + lo * hi;
      assert lo * (hi - lo) == lo * hi - lo * lo;
    }
    assert hi * s - f * s == hi * (hi - lo) by {
      assert hi * s == lo * hi + hi * hi;
      assert hi * (hi - lo) == hi * hi - lo * hi;
    }
    CancelFactor(lo, f, s);
    CancelFactor(f, hi, s);
  }

  /** The harmonic mean is 0 exactly when one argument is. */
  lemma HarmonicMeanZero(p: real, r: real, f: real)
    requires 0.0 <= p && 0.0 <= r && p + r > 0.0
    requires f * (p + r) == 2.0 * (p * r)
    ensures f == 0.0 <==> p == 0.0 || r == 0.0
  {
    if f == 0.0 {
      assert p * r == 0.0;
      ZeroProduct(p, r);
    }
    if p == 0.0 || r == 0.0 {
      assert f * (p + r) == 0.0;
      ZeroProduct(f, p + r);
    }
  }

  /** Within [0, 1], the harmonic mean is 1 exactly when both arguments are. */
  lemma HarmonicMeanOne(p: real, r: real, f: real)
    requires 0.0 <= p <= 1.0 && 0.0 <= r <= 1.0 && p + r > 0.0
    requires f * (p + r) == 2.0 * (p * r)
    ensures f == 1.0 <==> p == 1.0 && r == 1.0
  {
    if f == 1.0 {
      // p + r == 2pr, i.e. p(1 - r) + r(1 - p) == 0 with both terms non-negative
      assert p * (1.0 - r) + r * (1.0 - p) == 0.0;
      NonNegativeProduct(p, 1.0 - r);
      NonNegativeProduct(r, 1.0 - p);
      ZeroProduct(p, 1.0 - r);
      ZeroProduct(r, 1.0 - p);
    }
  }

  lemma NonNegativeProduct(x: real, y: real)
    requires 0.0 <= x && 0.0 <= y
    ensures 0.0 <= x * y
  {
  }

  lemma ZeroProduct(x: real, y: real)
    requires x * y == 0.0
    ensures x == 0.0 || y == 0.0
  {
  }

  lemma CancelFactor(a: real, b: real, s: real)
    requires s > 0.0 && a * s <= b * s
    ensures a <= b
  {
    assert (b - a) * s >= 0.0;
  }

  /** The three metrics from pooled counts; recall's division by zero surfaces as an error. */
  function Score(c: Counts): (s: Result<Scores, Error>)
    ensures s.Err? <==> c.tp + c.fn == 0
    ensures s.Err? ==> s.error == ZeroDivisionError
    ensures s.Ok? ==> 0.0 <= s.value.precision <= 1.0 && 0.0 <= s.value.recall <= 1.0
    ensures s.Ok? ==> 0.0 <= s.value.f1 <= 1.0
    ensures s.Ok? ==> (s.value.f1 == 1.0 <==> c.fp == 0 && c.fn == 0)
    ensures s.Ok? ==> (s.value.f1 == 0.0 <==> c.tp == 0)
  {
    var p := Precision(c);
    match Recall(c)
    case Err(e) => Err(e)
    case Ok(r) => Ok(Scores(F1(p, r), p, r))
  }
}
