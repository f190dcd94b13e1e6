/** The model evaluator: predictions are matched with actual results by player, each matched
    player yields one metrics row per stat (error, absolute and percentage error, z-score and
    whether the actual value falls within one standard deviation), and the averaged
    percentage error and interval accuracy decide a letter grade. */
module ModelEvaluator {
  import opened Common

  /** A player's simulated means and standard deviations. */
  datatype Prediction = Prediction(player: string, ptsMean: real, ptsStd: real, rebMean: real, rebStd: real,
                                   astMean: real, astStd: real)

  /** A player's actual line. */
  datatype Actual = Actual(player: string, pts: real, reb: real, ast: real)

  /** One row of the merged frame. */
  datatype Merged = Merged(p: Prediction, a: Actual)

  datatype Stat = PTS | REB | AST

  /** One row of the results frame. */
  datatype MetricRow = MetricRow(player: string, stat: Stat, predicted: real, actual: real, error: real,
                                 absError: real, pctError: real, zScore: real, inConfidenceInterval: bool)

  /** The actual rows of one player, in order. */
  function MatchesOf(p: Prediction, actuals: seq<Actual>): seq<Merged>
  {
    if actuals == [] then []
    else MatchesOf(p, actuals[..|actuals| - 1])
         + (if actuals[|actuals| - 1].player == p.player then [Merged(p, actuals[|actuals| - 1])] else [])
  }

  /** The inner merge on player: the prediction rows in order, each paired with every actual
      row of the same player, in order. */
  function Merge(preds: seq<Prediction>, actuals: seq<Actual>): seq<Merged>
  {
    if preds == [] then [] else Merge(preds[..|preds| - 1], actuals) + MatchesOf(preds[|preds| - 1], actuals)
  }

  lemma {:induction false} MatchesOfSpec(p: Prediction, actuals: seq<Actual>)
    ensures forall m :: m in MatchesOf(p, actuals) ==> m.p == p && m.a in actuals && m.a.player == p.player
    ensures forall a :: a in actuals && a.player == p.player ==> Merged(p, a) in MatchesOf(p, actuals)
  {
    if actuals != [] {
      MatchesOfSpec(p, actuals[..|actuals| - 1]);
      assert actuals == actuals[..|actuals| - 1] + [actuals[|actuals| - 1]];
    }
  }

  /** Only players present on both sides are evaluated, and every such pairing is. */
  lemma {:induction false} MergeSpec(preds: seq<Prediction>, actuals: seq<Actual>)
    ensures forall m :: m in Merge(preds, actuals) ==> m.p in preds && m.a in actuals && m.p.player == m.a.player
    ensures forall p, a :: p in preds && a in actuals && p.player == a.player ==> Merged(p, a) in Merge(preds, actuals)
  {
    if preds != [] {
      var init, last := preds[..|preds| - 1], preds[|preds| - 1];
      assert init + [last] == preds;
      MergeSpec(init, actuals);
      MatchesOfSpec(last, actuals);
    }
  }

  /** The metrics of one stat: error, absolute error, percentage error against the actual
      value floored at 0.1, a z-score that is 0 without a positive std (the std floored at
      0.1 otherwise), and whether that z-score is at most 1 in size. */
  function Metric(player: string, stat: Stat, predictedMean: real, predictedStd: real, actualValue: real): (r: MetricRow)
    ensures r.player == player && r.stat == stat && r.predicted == predictedMean && r.actual == actualValue
    ensures r.error + predictedMean == actualValue && r.absError == Abs(r.error)
  {
    var error := actualValue - predictedMean;
    var absError := Abs(error);
    var pctError := (absError / Max(actualValue, 0.1)) * 100.0;
    var zScore := if predictedStd > 0.0 then error / Max(predictedStd, 0.1) else 0.0;
    MetricRow(player, stat, predictedMean, actualValue, error, absError, pctError, zScore, Abs(zScore) <= 1.0)
  }

  lemma DivNonNegative(a: real, d: real)
    requires a >= 0.0 && d > 0.0
    ensures a / d >= 0.0
  {
  }

  lemma WithinOne(e: real, s: real)
    requires s > 0.0
    ensures Abs(e / s) <= 1.0 <==> Abs(e) <= s
  {
    if e >= 0.0 {
      DivNonNegative(e, s);
      QuotientAtMostOne(e, s);
    } else {
      DivNonNegative(-e, s);
      QuotientAtMostOne(-e, s);
      assert -e / s == -(e / s);
    }
  }

  lemma QuotientAtMostOne(a: real, s: real)
    requires a >= 0.0 && s > 0.0
    ensures a / s <= 1.0 <==> a <= s
  {
  }

  /** The percentage error is never negative; without a positive std the z-score is 0 and the
      actual value counts as inside the interval; with one, it is inside exactly when it lies
      within max(std, 0.1) of the prediction. */
  lemma MetricSpec(player: string, stat: Stat, predictedMean: real, predictedStd: real, actualValue: real)
    ensures Metric(player, stat, predictedMean, predictedStd, actualValue).pctError >= 0.0
    ensures predictedStd <= 0.0 ==>
              Metric(player, stat, predictedMean, predictedStd, actualValue).zScore == 0.0
              && Metric(player, stat, predictedMean, predictedStd, actualValue).inConfidenceInterval
    ensures predictedStd > 0.0 ==>
              (Metric(player, stat, predictedMean, predictedStd, actualValue).inConfidenceInterval
               <==> Abs(actualValue - predictedMean) <= Max(predictedStd, 0.1))
  {
    DivNonNegative(Abs(actualValue - predictedMean), Max(actualValue, 0.1));
    if predictedStd > 0.0 {
      WithinOne(actualValue - predictedMean, Max(predictedStd, 0.1));
    }
  }

  /** The three rows of one merged player, in the order PTS, REB, AST. */
  function RowsOf(m: Merged): (rows: seq<MetricRow>)
    ensures |rows| == 3
    ensures rows[0].stat == PTS && rows[1].stat == REB && rows[2].stat == AST
    ensures forall k :: 0 <= k < 3 ==> rows[k].player == m.p.player
  {
    [Metric(m.p.player, PTS, m.p.ptsMean, m.p.ptsStd, m.a.pts),
     Metric(m.p.player, REB, m.p.rebMean, m.p.rebStd, m.a.reb),
     Metric(m.p.player, AST, m.p.astMean, m.p.astStd, m.a.ast)]
  }

  function AllRows(merged: seq<Merged>): seq<MetricRow>
  {
    if merged == [] then [] else AllRows(merged[..|merged| - 1]) + RowsOf(merged[|merged| - 1])
  }

  lemma {:induction false} AllRowsLength(merged: seq<Merged>)
    ensures |AllRows(merged)| == 3 * |merged|
  {
    if merged != [] {
      AllRowsLength(merged[..|merged| - 1]);
    }
  }

  lemma {:induction false} AllRowsAt(merged: seq<Merged>, i: nat, k: nat)
    requires i < |merged| && k < 3
    ensures |AllRows(merged)| == 3 * |merged|
    ensures AllRows(merged)[3 * i + k] == RowsOf(merged[i])[k]
  {
    var init := merged[..|merged| - 1];
    AllRowsLength(merged);
    AllRowsLength(init);
    if i < |init| {
      AllRowsAt(init, i, k);
      assert init[i] == merged[i];
    }
  }

  /** Three rows per merged player: rows 3i, 3i + 1 and 3i + 2 are player i's PTS, REB and AST. */
  lemma AllRowsSpec(merged: seq<Merged>)
    ensures |AllRows(merged)| == 3 * |merged|
    ensures forall i, k :: 0 <= i < |merged| && 0 <= k < 3 ==> AllRows(merged)[3 * i + k] == RowsOf(merged[i])[k]
  {
    AllRowsLength(merged);
    forall i, k | 0 <= i < |merged| && 0 <= k < 3 ensures AllRows(merged)[3 * i + k] == RowsOf(merged[i])[k] {
      AllRowsAt(merged, i, k);
    }
  }

  /** The result loop of `calculate_accuracy_metrics` over the merged rows. */
  method MetricRows(merged: seq<Merged>) returns (rows: seq<MetricRow>)
    ensures rows == AllRows(merged)
  {
    rows := [];
    for i := 0 to |merged|
      invariant rows == AllRows(merged[..i])
    {
      assert merged[..i + 1][..i] == merged[..i];
      var row := merged[i];
      rows := rows + [Metric(row.p.player, PTS, row.p.ptsMean, row.p.ptsStd, row.a.pts)];
      rows := rows + [Metric(row.p.player, REB, row.p.rebMean, row.p.rebStd, row.a.reb)];
      rows := rows + [Metric(row.p.player, AST, row.p.astMean, row.p.astStd, row.a.ast)];
    }
    assert merged[..|merged|] == merged;
  }

  /** `calculate_accuracy_metrics` up to the results frame: `None` when no player matches. */
  method CalculateAccuracyMetrics(preds: seq<Prediction>, actuals: seq<Actual>) returns (r: Option<seq<MetricRow>>)
    ensures r.None? <==> Merge(preds, actuals) == []
    ensures r.Some? ==> r.value == AllRows(Merge(preds, actuals))
  {
    var merged := Merge(preds, actuals);
    if merged == [] {
      return None;
    }
    var rows := MetricRows(merged);
    r := Some(rows);
  }

  datatype Grade = A | B | C | D | F

  /** The grade table: the first tier whose MAPE ceiling and interval-accuracy floor are both
      met, F otherwise. */
  function GradeOf(avgMape: real, avgCiAccuracy: real): (g: Grade)
    ensures g == A <==> avgMape <= 15.0 && avgCiAccuracy >= 70.0
    ensures g == B <==> !(avgMape <= 15.0 && avgCiAccuracy >= 70.0)
                        && avgMape <= 25.0 && avgCiAccuracy >= 60.0
    ensures g == C <==> !(avgMape <= 15.0 && avgCiAccuracy >= 70.0)
                        && !(avgMape <= 25.0 && avgCiAccuracy >= 60.0)
                        && avgMape <= 35.0 && avgCiAccuracy >= 50.0
    ensures g == D <==> !(avgMape <= 15.0 && avgCiAccuracy >= 70.0)
                        && !(avgMape <= 25.0 && avgCiAccuracy >= 60.0)
                        && !(avgMape <= 35.0 && avgCiAccuracy >= 50.0)
                        && avgMape <= 50.0 && avgCiAccuracy >= 40.0
    ensures g == F <==> !(avgMape <= 50.0 && avgCiAccuracy >= 40.0)
                        && !(avgMape <= 35.0 && avgCiAccuracy >= 50.0)
                        && !(avgMape <= 25.0 && avgCiAccuracy >= 60.0)
                        && !(avgMape <= 15.0 && avgCiAccuracy >= 70.0)
  {
    if avgMape <= 15.0 && avgCiAccuracy >= 70.0 then A
    else if avgMape <= 25.0 && avgCiAccuracy >= 60.0 then B
    else if avgMape <= 35.0 && avgCiAccuracy >= 50.0 then C
    else if avgMape <= 50.0 && avgCiAccuracy >= 40.0 then D
    else F
  }

  /** A = 4 down to F = 0. */
  function Rank(g: Grade): nat
  {
    match g
    case A => 4
    case B => 3
    case C => 2
    case D => 1
    case F => 0
  }

  /** Lower percentage error and higher interval accuracy never give a worse grade. */
  lemma GradeMonotone(mape1: real, ci1: real, mape2: real, ci2: real)
    requires mape2 <= mape1 && ci1 <= ci2
    ensures Rank(GradeOf(mape1, ci1)) <= Rank(GradeOf(mape2, ci2))
  {
  }
}
