/** What the evaluation entry points compute from the cached test labels and predictions:
    scikit-learn's confusion_matrix, precision_score, recall_score and f1_score for the
    positive class 1 (zero when a denominator is zero), and the numbers of
    classification_report. Labels are 0 (good water) and 1 (contaminated water). */
module Metrics {
  import opened Outcomes

  predicate IsBinary(s: seq<int>)
  {
    forall i :: 0 <= i < |s| ==> s[i] == 0 || s[i] == 1
  }

  /** The number of positions whose actual label is `actual` and whose prediction is
      `predicted`. */
  function Count(yTrue: seq<int>, yPred: seq<int>, actual: int, predicted: int): (n: nat)
    requires |yTrue| == |yPred|
    ensures n <= |yTrue|
  {
    if yTrue == [] then 0
    else
      var last := |yTrue| - 1;
      Count(yTrue[..last], yPred[..last], actual, predicted)
        + (if yTrue[last] == actual && yPred[last] == predicted then 1 else 0)
  }

  /** Reference definition of Count: the set of matching positions. */
  ghost function Positions(yTrue: seq<int>, yPred: seq<int>, actual: int, predicted: int): set<int>
    requires |yTrue| == |yPred|
  {
    set i | 0 <= i < |yTrue| && yTrue[i] == actual && yPred[i] == predicted
  }

  lemma {:induction false} CountIsCardinality(yTrue: seq<int>, yPred: seq<int>, actual: int, predicted: int)
    requires |yTrue| == |yPred|
    ensures Count(yTrue, yPred, actual, predicted) == |Positions(yTrue, yPred, actual, predicted)|
  {
    if yTrue == [] {
      assert Positions(yTrue, yPred, actual, predicted) == {};
    } else {
      var last := |yTrue| - 1;
      CountIsCardinality(yTrue[..last], yPred[..last], actual, predicted);
      var before := Positions(yTrue[..last], yPred[..last], actual, predicted);
      if yTrue[last] == actual && yPred[last] == predicted {
        assert Positions(yTrue, yPred, actual, predicted) == before + {last};
      } else {
        assert Positions(yTrue, yPred, actual, predicted) == before;
      }
    }
  }

  /** A pair that never occurs is counted zero times. */
  lemma CountAbsent(yTrue: seq<int>, yPred: seq<int>, actual: int, predicted: int)
    requires |yTrue| == |yPred|
    requires actual !in yTrue || predicted !in yPred
    ensures Count(yTrue, yPred, actual, predicted) == 0
  {
    CountIsCardinality(yTrue, yPred, actual, predicted);
    assert Positions(yTrue, yPred, actual, predicted) == {};
  }

  /** The four cells of the binary confusion matrix. */
  datatype Confusion = Confusion(tn: nat, fp: nat, fn: nat, tp: nat)

  /** The cells of confusion_matrix for binary labels: over binary labels they account
      for every sample. */
  function Tally(yTrue: seq<int>, yPred: seq<int>): (m: Confusion)
    requires |yTrue| == |yPred|
    ensures IsBinary(yTrue) && IsBinary(yPred) ==> m.tn + m.fp + m.fn + m.tp == |yTrue|
  {
    var m := Confusion(Count(yTrue, yPred, 0, 0), Count(yTrue, yPred, 0, 1),
                       Count(yTrue, yPred, 1, 0), Count(yTrue, yPred, 1, 1));
    assert IsBinary(yTrue) && IsBinary(yPred) ==> m.tn + m.fp + m.fn + m.tp == |yTrue| by {
      if IsBinary(yTrue) && IsBinary(yPred) {
        TallyTotal(yTrue, yPred);
      }
    }
    m
  }

  function Total(m: Confusion): nat { m.tn + m.fp + m.fn + m.tp }

  /** Over binary labels every position lands in exactly one cell. */
  lemma {:induction false} TallyTotal(yTrue: seq<int>, yPred: seq<int>)
    requires |yTrue| == |yPred| && IsBinary(yTrue) && IsBinary(yPred)
    ensures Count(yTrue, yPred, 0, 0) + Count(yTrue, yPred, 0, 1)
      + Count(yTrue, yPred, 1, 0) + Count(yTrue, yPred, 1, 1) == |yTrue|
  {
    if yTrue != [] {
      var last := |yTrue| - 1;
      TallyTotal(yTrue[..last], yPred[..last]);
    }
  }

  /** The labels that occur in either sequence, in increasing order: scikit-learn sizes
      the matrix to these when no `labels` argument is given. */
  function PresentLabels(yTrue: seq<int>, yPred: seq<int>): seq<int>
  {
    (if 0 in yTrue || 0 in yPred then [0] else []) + (if 1 in yTrue || 1 in yPred then [1] else [])
  }

  /** confusion_matrix(y_test, y_pred): rows are actual labels, columns predicted ones. */
  function ConfusionMatrix(yTrue: seq<int>, yPred: seq<int>): (mat: seq<seq<nat>>)
    requires |yTrue| == |yPred|
    ensures |mat| == |PresentLabels(yTrue, yPred)|
    ensures forall i :: 0 <= i < |mat| ==> |mat[i]| == |mat|
  {
    var labels := PresentLabels(yTrue, yPred);
    seq(|labels|, i requires 0 <= i < |labels| =>
      seq(|labels|, j requires 0 <= j < |labels| => Count(yTrue, yPred, labels[i], labels[j])))
  }

  function RowSum(row: seq<nat>): nat
  {
    if row == [] then 0 else row[0] + RowSum(row[1..])
  }

  function MatrixSum(mat: seq<seq<nat>>): nat
  {
    if mat == [] then 0 else RowSum(mat[0]) + MatrixSum(mat[1..])
  }

  lemma SumOneByOne(a: nat)
    ensures MatrixSum([[a]]) == a
  {
    assert [a][1..] == [];
    assert RowSum([a]) == a;
    assert [[a]][1..] == [];
  }

  lemma SumTwoByTwo(a: nat, b: nat, c: nat, d: nat)
    ensures MatrixSum([[a, b], [c, d]]) == a + b + c + d
  {
    assert [b][1..] == [] && [d][1..] == [];
    assert RowSum([b]) == b && RowSum([d]) == d;
    assert [a, b][1..] == [b] && [c, d][1..] == [d];
    assert RowSum([a, b]) == a + b && RowSum([c, d]) == c + d;
    assert [[c, d]][1..] == [];
    assert MatrixSum([[c, d]]) == c + d;
    assert [[a, b], [c, d]][1..] == [[c, d]];
  }

  /** When both classes occur, the matrix is [[TN, FP], [FN, TP]]. */
  lemma ConfusionMatrixBinary(yTrue: seq<int>, yPred: seq<int>)
    requires |yTrue| == |yPred|
    requires (0 in yTrue || 0 in yPred) && (1 in yTrue || 1 in yPred)
    ensures ConfusionMatrix(yTrue, yPred)
      == [[Tally(yTrue, yPred).tn, Tally(yTrue, yPred).fp], [Tally(yTrue, yPred).fn, Tally(yTrue, yPred).tp]]
  {
    assert PresentLabels(yTrue, yPred) == [0, 1];
    var mat := ConfusionMatrix(yTrue, yPred);
    assert mat[0] == [Count(yTrue, yPred, 0, 0), Count(yTrue, yPred, 0, 1)];
    assert mat[1] == [Count(yTrue, yPred, 1, 0), Count(yTrue, yPred, 1, 1)];
  }

  /** The entries of the matrix add up to the number of test samples, whichever labels
      occur. */
  lemma ConfusionMatrixTotal(yTrue: seq<int>, yPred: seq<int>)
    requires |yTrue| == |yPred| && IsBinary(yTrue) && IsBinary(yPred)
    ensures MatrixSum(ConfusionMatrix(yTrue, yPred)) == |yTrue|
  {
    TallyTotal(yTrue, yPred);
    var mat := ConfusionMatrix(yTrue, yPred);
    var has0, has1 := 0 in yTrue || 0 in yPred, 1 in yTrue || 1 in yPred;
    if !has0 {
      CountAbsent(yTrue, yPred, 0, 0);
      CountAbsent(yTrue, yPred, 0, 1);
      CountAbsent(yTrue, yPred, 1, 0);
    }
    if !has1 {
      CountAbsent(yTrue, yPred, 1, 1);
      CountAbsent(yTrue, yPred, 0, 1);
      CountAbsent(yTrue, yPred, 1, 0);
    }
    if has0 && has1 {
      ConfusionMatrixBinary(yTrue, yPred);
      var m := Tally(yTrue, yPred);
      SumTwoByTwo(m.tn, m.fp, m.fn, m.tp);
    } else if has0 {
      assert PresentLabels(yTrue, yPred) == [0];
      assert |mat| == 1 && |mat[0]| == 1 && mat[0][0] == Count(yTrue, yPred, 0, 0);
      assert mat[0] == [Count(yTrue, yPred, 0, 0)];
      assert mat == [[Count(yTrue, yPred, 0, 0)]];
      SumOneByOne(Count(yTrue, yPred, 0, 0));
    } else if has1 {
      assert PresentLabels(yTrue, yPred) == [1];
      assert |mat| == 1 && |mat[0]| == 1 && mat[0][0] == Count(yTrue, yPred, 1, 1);
      assert mat[0] == [Count(yTrue, yPred, 1, 1)];
      assert mat == [[Count(yTrue, yPred, 1, 1)]];
      SumOneByOne(Count(yTrue, yPred, 1, 1));
    } else {
      assert PresentLabels(yTrue, yPred) == [];
    }
  }

  /** `num / den` as scikit-learn computes it with zero_division left at its default:
      0 when the denominator is 0. */
  function Ratio(num: nat, den: nat): (r: real)
    requires num <= den
    ensures 0.0 <= r <= 1.0
    ensures r == 0.0 <==> num == 0
    ensures r == 1.0 <==> num == den && den > 0
  {
    if den == 0 then 0.0 else num as real / den as real
  }

  /** precision_score for the positive class: TP / (TP + FP). */
  function Precision(m: Confusion): (p: real)
    ensures 0.0 <= p <= 1.0
    ensures p == 0.0 <==> m.tp == 0
    ensures p == 1.0 <==> m.tp > 0 && m.fp == 0
  {
    Ratio(m.tp, m.tp + m.fp)
  }

  /** recall_score for the positive class: TP / (TP + FN). */
  function Recall(m: Confusion): (r: real)
    ensures 0.0 <= r <= 1.0
    ensures r == 0.0 <==> m.tp == 0
    ensures r == 1.0 <==> m.tp > 0 && m.fn == 0
  {
    Ratio(m.tp, m.tp + m.fn)
  }

  /** `x * c == y * c` with `c` positive gives `x == y`. */
  lemma CancelPositive(x: real, y: real, c: real)
    requires c > 0.0 && x * c == y * c
    ensures x == y
  {
  }

  lemma NonnegativeFactor(x: real, c: real)
    requires c > 0.0 && x * c >= 0.0
    ensures x >= 0.0
  {
  }

  lemma ProductNonnegative(x: real, y: real)
    requires x >= 0.0 && y >= 0.0
    ensures x * y >= 0.0
  {
  }

  /** A quotient `num / den` with a positive denominator is at least `lo` when
      `num >= lo * den`, and at most `hi` when `num <= hi * den`. */
  lemma QuotientBounds(num: real, den: real, lo: real, hi: real)
    requires den > 0.0 && lo * den <= num <= hi * den
    ensures lo <= num / den <= hi
  {
    var q := num / den;
    assert q * den == num;
    NonnegativeFactor(q - lo, den);
    NonnegativeFactor(hi - q, den);
  }

  /** The harmonic mean of t/a and t/b is 2t/(a+b). */
  lemma HarmonicOfRatios(t: real, a: real, b: real)
    requires t > 0.0 && a > 0.0 && b > 0.0
    ensures 2.0 * (t / a) * (t / b) / (t / a + t / b) == 2.0 * t / (a + b)
  {
    var p, r := t / a, t / b;
    assert p * a == t && r * b == t;
    assert p > 0.0 && r > 0.0 by {
      NonnegativeFactor(p, a);
      NonnegativeFactor(r, b);
    }
    var g := 2.0 * t / (a + b);
    var f := 2.0 * p * r / (p + r);
    assert g * (a + b) == 2.0 * t;
    assert f * (p + r) == 2.0 * p * r;
    assert (p + r) * (a * b) == t * (a + b) by {
      assert (p + r) * (a * b) == (p * a) * b + (r * b) * a;
    }
    assert g * ((p + r) * (a * b)) == 2.0 * t * t by {
      assert g * (t * (a + b)) == t * (g * (a + b));
    }
    assert f * ((p + r) * (a * b)) == 2.0 * t * t by {
      assert f * ((p + r) * (a * b)) == (f * (p + r)) * (a * b);
      assert 2.0 * p * r * (a * b) == 2.0 * (p * a) * (r * b);
    }
    CancelPositive(g, f, (p + r) * (a * b));
  }

  /** The harmonic mean of precision and recall, 0 when both are 0; it lies between them. */
  function HarmonicMean(p: real, r: real): (f: real)
    requires 0.0 <= p && 0.0 <= r
    ensures p <= r ==> p <= f <= r
    ensures r <= p ==> r <= f <= p
  {
    if p + r == 0.0 then 0.0
    else
      var lo, hi := if p <= r then p else r, if p <= r then r else p;
      assert lo * (p + r) <= 2.0 * p * r <= hi * (p + r) by {
        assert 2.0 * p * r - lo * (p + r) == lo * (hi - lo);
        assert hi * (p + r) - 2.0 * p * r == hi * (hi - lo);
        ProductNonnegative(lo, hi - lo);
        ProductNonnegative(hi, hi - lo);
      }
      QuotientBounds(2.0 * p * r, p + r, lo, hi);
      2.0 * p * r / (p + r)
  }

  /** f1_score for the positive class. */
  function F1(m: Confusion): (f: real)
    ensures 0.0 <= f <= 1.0
  {
    HarmonicMean(Precision(m), Recall(m))
  }

  /** F1 is also 2TP / (2TP + FP + FN), the form scikit-learn evaluates, and is 0 when
      there is no true positive. */
  lemma F1FromCounts(m: Confusion)
    ensures F1(m) == Ratio(2 * m.tp, 2 * m.tp + m.fp + m.fn)
  {
    if m.tp > 0 {
      HarmonicOfCountRatios(m.tp, m.fp, m.fn);
    }
  }

  /** The harmonic mean of tp/(tp+fp) and tp/(tp+fn) is 2tp/(2tp+fp+fn). */
  lemma HarmonicOfCountRatios(tp: nat, fp: nat, fn: nat)
    requires tp > 0
    ensures HarmonicMean(Ratio(tp, tp + fp), Ratio(tp, tp + fn)) == Ratio(2 * tp, 2 * tp + fp + fn)
  {
    var t, a, b := tp as real, (tp + fp) as real, (tp + fn) as real;
    assert Ratio(tp, tp + fp) == t / a && Ratio(tp, tp + fn) == t / b;
    HarmonicOfRatios(t, a, b);
    assert (2 * tp + fp + fn) as real == a + b && (2 * tp) as real == 2.0 * t;
  }

  datatype Scores = Scores(precision: real, recall: real, f1: real)

  /** precision_score, recall_score and f1_score of precisao_recall_f1. */
  function PrecisionRecallF1(yTrue: seq<int>, yPred: seq<int>): (s: Scores)
    requires |yTrue| == |yPred|
    ensures 0.0 <= s.precision <= 1.0 && 0.0 <= s.recall <= 1.0
    ensures s.f1 == 0.0 <==> Tally(yTrue, yPred).tp == 0
  {
    var m := Tally(yTrue, yPred);
    F1FromCounts(m);
    Scores(Precision(m), Recall(m), F1(m))
  }

  /** Labels [0,1,0,1] predicted as [0,1,1,1]: TN=1, FP=1, FN=0, TP=2. */
  lemma WorkedExampleTally()
    ensures Tally([0, 1, 0, 1], [0, 1, 1, 1]) == Confusion(1, 1, 0, 2)
  {
    var yTrue, yPred := [0, 1, 0, 1], [0, 1, 1, 1];
    assert yTrue[..3] == [0, 1, 0] && yPred[..3] == [0, 1, 1];
    assert [0, 1, 0][..2] == [0, 1] && [0, 1, 1][..2] == [0, 1];
    assert [0, 1][..1] == [0] && [0][..0] == [];
    assert Tally([0], [0]) == Confusion(1, 0, 0, 0);
    assert Tally([0, 1], [0, 1]) == Confusion(1, 0, 0, 1);
    assert Tally([0, 1, 0], [0, 1, 1]) == Confusion(1, 1, 0, 1);
  }

  /** ... which give precision 2/3, recall 1 and F1 4/5. */
  lemma WorkedExampleScores()
    ensures PrecisionRecallF1([0, 1, 0, 1], [0, 1, 1, 1]) == Scores(2.0 / 3.0, 1.0, 4.0 / 5.0)
  {
    WorkedExampleTally();
    var m := Confusion(1, 1, 0, 2);
    F1FromCounts(m);
    assert Precision(m) == 2.0 / 3.0 && Recall(m) == 1.0;
    assert F1(m) == 4.0 / 5.0;
  }

  /** The confusion counts seen with `positive` as the positive class. */
  function Oriented(m: Confusion, positive: int): (o: Confusion)
    requires positive == 0 || positive == 1
    ensures Total(o) == Total(m)
    ensures positive == 0 ==> o.tp == m.tn && o.fn == m.fp && o.fp == m.fn
    ensures positive == 1 ==> o == m
  {
    if positive == 1 then m else Confusion(m.tp, m.fn, m.fp, m.tn)
  }

  /** One line of classification_report. */
  datatype ClassRow = ClassRow(precision: real, recall: real, f1: real, support: nat)

  function RowFor(m: Confusion, positive: int): (row: ClassRow)
    requires positive == 0 || positive == 1
    ensures row.support == if positive == 1 then m.fn + m.tp else m.tn + m.fp
  {
    var o := Oriented(m, positive);
    ClassRow(Precision(o), Recall(o), F1(o), o.tp + o.fn)
  }

  /** The numbers of classification_report with target names "Água Boa (0)" and
      "Água Ruim (1)". */
  datatype Report = Report(good: ClassRow, bad: ClassRow, accuracy: real, macroAvg: ClassRow, weightedAvg: ClassRow)

  function Mean(x: real, y: real): real { (x + y) / 2.0 }

  function Weighted(x0: real, w0: nat, x1: real, w1: nat): real
    requires w0 + w1 > 0
  {
    (x0 * w0 as real + x1 * w1 as real) / (w0 + w1) as real
  }

  /** Both classes must occur among the labels and predictions: with two target names
      and no `labels` argument, scikit-learn refuses a report over a single class. */
  function ClassificationReport(yTrue: seq<int>, yPred: seq<int>): (r: Result<Report>)
    requires |yTrue| == |yPred| && IsBinary(yTrue) && IsBinary(yPred)
    ensures r.Err? <==> PresentLabels(yTrue, yPred) != [0, 1]
    ensures r.Err? ==> r.error == ClassCountMismatch
    ensures r.Ok? ==> r.value.good.support + r.value.bad.support == |yTrue| > 0
  {
    if !((0 in yTrue || 0 in yPred) && (1 in yTrue || 1 in yPred)) then Err(ClassCountMismatch)
    else
      var m := Tally(yTrue, yPred);
      TallyTotal(yTrue, yPred);
      var n := |yTrue|;
      var good, bad := RowFor(m, 0), RowFor(m, 1);
      Ok(Report(
        good, bad,
        Ratio(m.tn + m.tp, n),
        ClassRow(Mean(good.precision, bad.precision), Mean(good.recall, bad.recall), Mean(good.f1, bad.f1), n),
        ClassRow(Weighted(good.precision, good.support, bad.precision, bad.support),
                 Weighted(good.recall, good.support, bad.recall, bad.support),
                 Weighted(good.f1, good.support, bad.f1, bad.support), n)))
  }

  /** The report's line for class 1 holds the same precision, recall and F1 as
      precisao_recall_f1, and its support is the number of contaminated samples. */
  lemma ReportPositiveRow(yTrue: seq<int>, yPred: seq<int>)
    requires |yTrue| == |yPred| && IsBinary(yTrue) && IsBinary(yPred)
    requires ClassificationReport(yTrue, yPred).Ok?
    ensures ClassificationReport(yTrue, yPred).value.bad.precision == PrecisionRecallF1(yTrue, yPred).precision
    ensures ClassificationReport(yTrue, yPred).value.bad.recall == PrecisionRecallF1(yTrue, yPred).recall
    ensures ClassificationReport(yTrue, yPred).value.bad.f1 == PrecisionRecallF1(yTrue, yPred).f1
    ensures ClassificationReport(yTrue, yPred).value.bad.support == Count(yTrue, yPred, 1, 0) + Count(yTrue, yPred, 1, 1)
  {
  }

  /** The labels with 0 and 1 exchanged: scoring these for class 1 is scoring the
      originals for class 0. */
  function Flip(s: seq<int>): seq<int>
  {
    seq(|s|, i requires 0 <= i < |s| => 1 - s[i])
  }

  /** Exchanging the labels on both sides moves each pair count to the exchanged pair. */
  lemma {:induction false} CountFlip(yTrue: seq<int>, yPred: seq<int>, actual: int, predicted: int)
    requires |yTrue| == |yPred|
    ensures Count(Flip(yTrue), Flip(yPred), actual, predicted) == Count(yTrue, yPred, 1 - actual, 1 - predicted)
  {
    if yTrue == [] {
      assert Flip(yTrue) == [];
    } else {
      var last := |yTrue| - 1;
      assert Flip(yTrue)[..last] == Flip(yTrue[..last]);
      assert Flip(yPred)[..last] == Flip(yPred[..last]);
      CountFlip(yTrue[..last], yPred[..last], actual, predicted);
    }
  }

  /** Seeing class 0 as the positive class is the same as counting the relabelled
      samples for class 1. */
  lemma OrientedIsRelabelled(yTrue: seq<int>, yPred: seq<int>)
    requires |yTrue| == |yPred|
    ensures Oriented(Tally(yTrue, yPred), 0) == Tally(Flip(yTrue), Flip(yPred))
  {
    CountFlip(yTrue, yPred, 0, 0);
    CountFlip(yTrue, yPred, 0, 1);
    CountFlip(yTrue, yPred, 1, 0);
    CountFlip(yTrue, yPred, 1, 1);
  }

  /** The report's line for class 0 holds the precision, recall and F1 that
      precisao_recall_f1 would give with the labels exchanged, and its support is the
      number of good-water samples. */
  lemma ReportNegativeRow(yTrue: seq<int>, yPred: seq<int>)
    requires |yTrue| == |yPred| && IsBinary(yTrue) && IsBinary(yPred)
    requires ClassificationReport(yTrue, yPred).Ok?
    ensures ClassificationReport(yTrue, yPred).value.good.precision == PrecisionRecallF1(Flip(yTrue), Flip(yPred)).precision
    ensures ClassificationReport(yTrue, yPred).value.good.recall == PrecisionRecallF1(Flip(yTrue), Flip(yPred)).recall
    ensures ClassificationReport(yTrue, yPred).value.good.f1 == PrecisionRecallF1(Flip(yTrue), Flip(yPred)).f1
    ensures ClassificationReport(yTrue, yPred).value.good.support == Count(yTrue, yPred, 0, 0) + Count(yTrue, yPred, 0, 1)
  {
    OrientedIsRelabelled(yTrue, yPred);
  }

  /** Weighting each class's recall by its support gives the fraction of correct
      predictions. */
  lemma WeightedRecallOfCounts(m: Confusion)
    requires Total(m) > 0
    ensures Weighted(RowFor(m, 0).recall, RowFor(m, 0).support, RowFor(m, 1).recall, RowFor(m, 1).support)
      == Ratio(m.tn + m.tp, Total(m))
  {
    RowRecall(m);
    WeightedOfRatios(m.tn, m.tn + m.fp, m.tp, m.fn + m.tp);
  }

  /** Each class row's recall is the share of that class predicted right. */
  lemma RowRecall(m: Confusion)
    ensures RowFor(m, 0).recall == Ratio(m.tn, m.tn + m.fp) && RowFor(m, 0).support == m.tn + m.fp
    ensures RowFor(m, 1).recall == Ratio(m.tp, m.fn + m.tp) && RowFor(m, 1).support == m.fn + m.tp
  {
    assert m.tp + m.fn == m.fn + m.tp;
  }

  /** Weighting two ratios by their denominators gives the ratio of the summed numerators
      to the summed denominators. */
  lemma WeightedOfRatios(c0: nat, w0: nat, c1: nat, w1: nat)
    requires c0 <= w0 && c1 <= w1 && w0 + w1 > 0
    ensures Weighted(Ratio(c0, w0), w0, Ratio(c1, w1), w1) == Ratio(c0 + c1, w0 + w1)
  {
    RatioTimesDenominator(c0, w0);
    RatioTimesDenominator(c1, w1);
    assert Ratio(c0, w0) * w0 as real + Ratio(c1, w1) * w1 as real == (c0 + c1) as real;
  }

  /** A ratio times its denominator is its numerator (a zero denominator has a zero
      numerator). */
  lemma RatioTimesDenominator(num: nat, den: nat)
    requires num <= den
    ensures Ratio(num, den) * den as real == num as real
  {
    if den > 0 {
      var d := den as real;
      assert (num as real / d) * d == num as real;
    }
  }

  /** The support-weighted recall of the report equals its accuracy. */
  lemma WeightedRecallIsAccuracy(yTrue: seq<int>, yPred: seq<int>)
    requires |yTrue| == |yPred| && IsBinary(yTrue) && IsBinary(yPred)
    requires ClassificationReport(yTrue, yPred).Ok?
    ensures ClassificationReport(yTrue, yPred).value.weightedAvg.recall
      == ClassificationReport(yTrue, yPred).value.accuracy
  {
    TallyTotal(yTrue, yPred);
    WeightedRecallOfCounts(Tally(yTrue, yPred));
  }
}
