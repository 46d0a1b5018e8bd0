/** Balanced accuracy: the unweighted mean of per-class recall. */
module Scoring {

  /** An answer key in row order: id and true label. */
  type Truth = seq<(string, string)>

  function Total(truth: Truth, cls: string): nat {
    if truth == [] then 0
    else Total(truth[..|truth| - 1], cls) + if truth[|truth| - 1].1 == cls then 1 else 0
  }

  predicate Hit(row: (string, string), preds: map<string, string>) {
    row.0 in preds && preds[row.0] == row.1
  }

  function Correct(truth: Truth, preds: map<string, string>, cls: string): nat {
    if truth == [] then 0
    else
      Correct(truth[..|truth| - 1], preds, cls)
      + if truth[|truth| - 1].1 == cls && Hit(truth[|truth| - 1], preds) then 1 else 0
  }

  /** The labels of an answer key, in order of first occurrence. */
  function Labels(truth: Truth): (labels: seq<string>)
    ensures forall cls :: cls in labels <==> exists i :: 0 <= i < |truth| && truth[i].1 == cls
    ensures forall i, j | 0 <= i < j < |labels| :: labels[i] != labels[j]
  {
    if truth == [] then []
    else
      var n := |truth| - 1;
      var before := Labels(truth[..n]);
      assert forall i | 0 <= i < n :: truth[..n][i] == truth[i];
      if truth[n].1 in before then before else before + [truth[n].1]
  }

  lemma {:induction false} CountsBounded(truth: Truth, preds: map<string, string>, cls: string)
    ensures Correct(truth, preds, cls) <= Total(truth, cls)
    ensures Correct(truth, preds, cls) == Total(truth, cls) <==>
      forall i | 0 <= i < |truth| && truth[i].1 == cls :: Hit(truth[i], preds)
    ensures Total(truth, cls) > 0 <==> cls in Labels(truth)
  {
    if truth != [] {
      var n := |truth| - 1;
      CountsBounded(truth[..n], preds, cls);
      assert forall i | 0 <= i < n :: truth[..n][i] == truth[i];
      if (forall i | 0 <= i < n && truth[i].1 == cls :: Hit(truth[i], preds))
         && (truth[n].1 == cls ==> Hit(truth[n], preds)) {
        forall i | 0 <= i < |truth| && truth[i].1 == cls ensures Hit(truth[i], preds) {}
      }
    }
  }

  function Recall(truth: Truth, preds: map<string, string>, cls: string): real
    requires cls in Labels(truth)
  {
    CountsBounded(truth, preds, cls);
    Correct(truth, preds, cls) as real / Total(truth, cls) as real
  }

  function RecallSum(truth: Truth, preds: map<string, string>, labels: seq<string>): real
    requires forall cls | cls in labels :: cls in Labels(truth)
  {
    if labels == [] then 0.0
    else
      assert forall cls | cls in labels[..|labels| - 1] :: cls in labels;
      assert labels[|labels| - 1] in labels;
      RecallSum(truth, preds, labels[..|labels| - 1]) + Recall(truth, preds, labels[|labels| - 1])
  }

  function Score(truth: Truth, preds: map<string, string>): real {
    if Labels(truth) == [] then 0.0
    else RecallSum(truth, preds, Labels(truth)) / |Labels(truth)| as real
  }

  lemma RecallBounded(truth: Truth, preds: map<string, string>, cls: string)
    requires cls in Labels(truth)
    ensures 0.0 <= Recall(truth, preds, cls) <= 1.0
    ensures Recall(truth, preds, cls) == 1.0 <==>
      forall i | 0 <= i < |truth| && truth[i].1 == cls :: Hit(truth[i], preds)
  {
    CountsBounded(truth, preds, cls);
    var c, t := Correct(truth, preds, cls) as real, Total(truth, cls) as real;
    assert t > 0.0 && 0.0 <= c <= t;
    assert c / t * t == c;
    Quotient(c, t);
  }

  lemma Quotient(c: real, t: real)
    requires t > 0.0 && 0.0 <= c <= t
    ensures 0.0 <= c / t <= 1.0
    ensures c / t == 1.0 <==> c == t
  {
    var q := c / t;
    assert q * t == c;
    assert q > 1.0 ==> q * t > t;
    assert q < 0.0 ==> q * t < 0.0;
  }

  lemma {:induction false} SumBounded(truth: Truth, preds: map<string, string>, labels: seq<string>)
    requires forall cls | cls in labels :: cls in Labels(truth)
    ensures 0.0 <= RecallSum(truth, preds, labels) <= |labels| as real
    ensures RecallSum(truth, preds, labels) == |labels| as real <==>
      forall cls | cls in labels :: Recall(truth, preds, cls) == 1.0
  {
    if labels != [] {
      var n := |labels| - 1;
      assert labels[n] in labels;
      assert labels == labels[..n] + [labels[n]];
      SumBounded(truth, preds, labels[..n]);
      RecallBounded(truth, preds, labels[n]);
    }
  }

  /** The score lies in [0, 1], and is 1 exactly when there are rows and every one is predicted
      right. */
  lemma ScoreBounded(truth: Truth, preds: map<string, string>)
    ensures 0.0 <= Score(truth, preds) <= 1.0
    ensures Score(truth, preds) == 1.0 <==> truth != [] && forall i | 0 <= i < |truth| :: Hit(truth[i], preds)
  {
    var labels := Labels(truth);
    if truth != [] { assert truth[0].1 in labels; }
    if labels != [] {
      SumBounded(truth, preds, labels);
      Quotient(RecallSum(truth, preds, labels), |labels| as real);
      assert labels[0] in labels;
      if forall cls | cls in labels :: Recall(truth, preds, cls) == 1.0 {
        forall i | 0 <= i < |truth| ensures Hit(truth[i], preds) {
          assert truth[i].1 in labels;
          RecallBounded(truth, preds, truth[i].1);
        }
      }
      if forall i | 0 <= i < |truth| :: Hit(truth[i], preds) {
        forall cls | cls in labels ensures Recall(truth, preds, cls) == 1.0 {
          RecallBounded(truth, preds, cls);
        }
      }
    }
  }

  // ------------------------------------------------------------------ what the score is worth

  /** The rows of one class, by place. */
  function PlacesOf(truth: Truth, cls: string): set<nat> {
    set i: nat | i < |truth| && truth[i].1 == cls
  }

  function Classes(truth: Truth): set<string> {
    set i: nat | i < |truth| :: truth[i].1
  }

  lemma {:induction false} TotalCounts(truth: Truth, cls: string)
    ensures Total(truth, cls) == |PlacesOf(truth, cls)|
  {
    if truth != [] {
      var n := |truth| - 1;
      TotalCounts(truth[..n], cls);
      var before := PlacesOf(truth[..n], cls);
      assert PlacesOf(truth, cls) == if truth[n].1 == cls then before + {n} else before;
    }
  }

  lemma {:induction false} LabelsCount(truth: Truth)
    ensures |Labels(truth)| == |Classes(truth)|
  {
    if truth != [] {
      var n := |truth| - 1;
      LabelsCount(truth[..n]);
      assert forall i | 0 <= i < n :: truth[..n][i] == truth[i];
      assert Classes(truth) == Classes(truth[..n]) + {truth[n].1};
      assert truth[n].1 in Labels(truth[..n]) <==> truth[n].1 in Classes(truth[..n]);
    }
  }

  /** `better` gets row `i` right, which `preds` gets wrong; on every other row they agree. */
  ghost predicate OneMoreRight(truth: Truth, preds: map<string, string>, better: map<string, string>, i: nat) {
    && i < |truth|
    && !(truth[i].0 in preds && preds[truth[i].0] == truth[i].1)
    && truth[i].0 in better && better[truth[i].0] == truth[i].1
    && forall j | 0 <= j < |truth| && j != i ::
         (truth[j].0 in preds && preds[truth[j].0] == truth[j].1)
         <==> (truth[j].0 in better && better[truth[j].0] == truth[j].1)
  }

  lemma {:induction false} SameHits(truth: Truth, preds: map<string, string>, better: map<string, string>, cls: string)
    requires forall j | 0 <= j < |truth| :: Hit(truth[j], preds) <==> Hit(truth[j], better)
    ensures Correct(truth, better, cls) == Correct(truth, preds, cls)
  {
    if truth != [] { SameHits(truth[..|truth| - 1], preds, better, cls); }
  }

  lemma {:induction false} OneMoreCorrect(truth: Truth, preds: map<string, string>, better: map<string, string>, i: nat, cls: string)
    requires OneMoreRight(truth, preds, better, i)
    ensures Correct(truth, better, cls) == Correct(truth, preds, cls) + if truth[i].1 == cls then 1 else 0
  {
    var n := |truth| - 1;
    if i == n {
      SameHits(truth[..n], preds, better, cls);
    } else {
      OneMoreCorrect(truth[..n], preds, better, i, cls);
    }
  }

  lemma OneMoreRecall(truth: Truth, preds: map<string, string>, better: map<string, string>, i: nat, cls: string)
    requires OneMoreRight(truth, preds, better, i) && cls in Labels(truth)
    ensures PlacesOf(truth, truth[i].1) != {}
    ensures Recall(truth, better, cls) ==
      Recall(truth, preds, cls) + if truth[i].1 == cls then 1.0 / |PlacesOf(truth, cls)| as real else 0.0
  {
    assert i in PlacesOf(truth, truth[i].1);
    OneMoreCorrect(truth, preds, better, i, cls);
    TotalCounts(truth, cls);
    CountsBounded(truth, preds, cls);
    OverSum(Correct(truth, preds, cls) as real, 1.0, Total(truth, cls) as real);
  }

  lemma OverSum(a: real, b: real, t: real)
    requires t != 0.0
    ensures (a + b) / t == a / t + b / t
  {
  }

  lemma {:induction false} OneMoreSum(truth: Truth, preds: map<string, string>, better: map<string, string>, i: nat, labels: seq<string>)
    requires OneMoreRight(truth, preds, better, i) && forall cls | cls in labels :: cls in Labels(truth)
    requires forall a, b | 0 <= a < b < |labels| :: labels[a] != labels[b]
    ensures PlacesOf(truth, truth[i].1) != {}
    ensures RecallSum(truth, better, labels) == RecallSum(truth, preds, labels)
      + if truth[i].1 in labels then 1.0 / |PlacesOf(truth, truth[i].1)| as real else 0.0
  {
    hide Recall, OneMoreRight, PlacesOf, Labels;
    if labels == [] {
      assert PlacesOf(truth, truth[i].1) != {} by { HasRow(truth, preds, better, i); }
    } else {
      var n := |labels| - 1;
      assert labels == labels[..n] + [labels[n]] && labels[n] in labels;
      OneMoreSum(truth, preds, better, i, labels[..n]);
      OneMoreRecall(truth, preds, better, i, labels[n]);
    }
  }

  lemma HasRow(truth: Truth, preds: map<string, string>, better: map<string, string>, i: nat)
    requires OneMoreRight(truth, preds, better, i)
    ensures i < |truth| && i in PlacesOf(truth, truth[i].1) && truth[i].1 in Classes(truth)
  {
  }

  /** Every row counts, and every class equally: one more row of a class predicted right raises the
      score by exactly 1 over the number of classes times the number of rows of that class. */
  lemma EveryRowCounts(truth: Truth, preds: map<string, string>, better: map<string, string>, i: nat)
    requires OneMoreRight(truth, preds, better, i)
    ensures var classes := set j: nat | j < |truth| :: truth[j].1;
      var rows := set j: nat | j < |truth| && truth[j].1 == truth[i].1;
      && classes != {} && rows != {}
      && Score(truth, better) == Score(truth, preds) + 1.0 / (|classes| * |rows|) as real
  {
    hide Score, Labels, Total, Correct;
    ScoreRises(truth, preds, better, i);
  }

  lemma ScoreRises(truth: Truth, preds: map<string, string>, better: map<string, string>, i: nat)
    requires OneMoreRight(truth, preds, better, i)
    ensures truth[i].1 in Classes(truth) && i in PlacesOf(truth, truth[i].1)
    ensures Score(truth, better) ==
      Score(truth, preds) + 1.0 / (|Classes(truth)| * |PlacesOf(truth, truth[i].1)|) as real
  {
    HasRow(truth, preds, better, i);
    LabelsCount(truth);
    OneMoreSum(truth, preds, better, i, Labels(truth));
    assert truth[i].1 in Labels(truth);
    MeanIs(truth, preds);
    MeanIs(truth, better);
    hide RecallSum, OneMoreRight, PlacesOf, Classes, Score, Labels;
    MeanRises(RecallSum(truth, preds, Labels(truth)), |PlacesOf(truth, truth[i].1)|, |Classes(truth)|);
  }

  lemma MeanIs(truth: Truth, preds: map<string, string>)
    ensures Labels(truth) != [] ==> Score(truth, preds) == RecallSum(truth, preds, Labels(truth)) / |Labels(truth)| as real
  {
  }

  lemma MeanRises(sum: real, n: nat, k: nat)
    requires n > 0 && k > 0
    ensures k * n > 0 && (sum + 1.0 / n as real) / k as real == sum / k as real + 1.0 / (k * n) as real
  {
    assert (k * n) as real == k as real * n as real;
    OverSum(sum, 1.0 / n as real, k as real);
    OverProduct(n as real, k as real);
  }

  lemma OverProduct(n: real, k: real)
    requires n > 0.0 && k > 0.0
    ensures k * n != 0.0 && 1.0 / n / k == 1.0 / (k * n)
  {
    var q := 1.0 / n / k;
    assert q * k == 1.0 / n;
    assert q * k * n == 1.0;
    assert q * (k * n) == q * k * n;
  }

  /** With no row right the score is 0. Together with `EveryRowCounts` this determines it. */
  lemma NoneRightIsZero(truth: Truth, preds: map<string, string>)
    requires forall j | 0 <= j < |truth| :: !(truth[j].0 in preds && preds[truth[j].0] == truth[j].1)
    ensures Score(truth, preds) == 0.0
  {
    NoneRightSum(truth, preds, Labels(truth));
  }

  lemma {:induction false} NoneCorrect(truth: Truth, preds: map<string, string>, cls: string)
    requires forall j | 0 <= j < |truth| :: !Hit(truth[j], preds)
    ensures Correct(truth, preds, cls) == 0
  {
    if truth != [] { NoneCorrect(truth[..|truth| - 1], preds, cls); }
  }

  lemma {:induction false} NoneRightSum(truth: Truth, preds: map<string, string>, labels: seq<string>)
    requires forall j | 0 <= j < |truth| :: !Hit(truth[j], preds)
    requires forall cls | cls in labels :: cls in Labels(truth)
    ensures RecallSum(truth, preds, labels) == 0.0
  {
    if labels != [] {
      var n := |labels| - 1;
      assert labels == labels[..n] + [labels[n]] && labels[n] in labels;
      NoneRightSum(truth, preds, labels[..n]);
      NoneCorrect(truth, preds, labels[n]);
      CountsBounded(truth, preds, labels[n]);
    }
  }

  /** The counting loop: per-class totals and hits, and the classes in order. */
  method CountClasses(truth: Truth, preds: map<string, string>)
    returns (labels: seq<string>, totals: map<string, nat>, correct: map<string, nat>)
    ensures labels == Labels(truth)
    ensures forall cls | cls in labels :: cls in totals && totals[cls] == Total(truth, cls)
    ensures forall cls :: (if cls in correct then correct[cls] else 0) == Correct(truth, preds, cls)
  {
    labels, totals, correct := [], map[], map[];
    for i := 0 to |truth|
      invariant labels == Labels(truth[..i])
      invariant forall cls :: cls in totals <==> cls in labels
      invariant forall cls :: (if cls in totals then totals[cls] else 0) == Total(truth[..i], cls)
      invariant forall cls :: (if cls in correct then correct[cls] else 0) == Correct(truth[..i], preds, cls)
    {
      var cls := truth[i].1;
      assert truth[..i + 1][..i] == truth[..i];
      if cls !in totals { labels := labels + [cls]; }
      totals := totals[cls := (if cls in totals then totals[cls] else 0) + 1];
      if truth[i].0 in preds && preds[truth[i].0] == cls {
        correct := correct[cls := (if cls in correct then correct[cls] else 0) + 1];
      }
    }
    assert truth[..|truth|] == truth;
  }

  method BalancedAccuracy(truth: Truth, preds: map<string, string>) returns (score: real)
    ensures score == Score(truth, preds)
  {
    var labels, totals, correct := CountClasses(truth, preds);
    if labels == [] { return 0.0; }
    var sum := 0.0;
    for i := 0 to |labels|
      invariant forall cls | cls in labels[..i] :: cls in Labels(truth)
      invariant sum == RecallSum(truth, preds, labels[..i])
    {
      assert labels[i] in labels;
      CountsBounded(truth, preds, labels[i]);
      assert labels[..i + 1][..i] == labels[..i];
      sum := sum + (if labels[i] in correct then correct[labels[i]] else 0) as real / totals[labels[i]] as real;
    }
    assert labels[..|labels|] == labels;
    score := sum / |labels| as real;
  }
}
