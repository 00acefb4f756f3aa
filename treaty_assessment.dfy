/**
 * One full recomputation pass of the simulator (tubbysnowplow.py lines
 * 53-70): raw annual losses and treaty terms in, the treaty layer's
 * metrics and exceedance-probability curve out.
 */
module TreatyAssessment {
  import opened Wrappers
  import opened Reductions
  import opened LayerTransform
  import opened RiskMetrics
  import opened ExceedanceCurve

  /** Raised instead of the all-NaN report an empty loss sample produces. */
  datatype AssessError = InsufficientData

  /** Everything the script derives from one layer-loss sample. */
  datatype Report = Report(
    layerLosses: seq<real>,
    expectedLoss: real,
    variance: real,
    cvSquared: Option<real>,
    sortedLosses: seq<real>,
    returnPeriods: seq<real>,
    loss1In200: Option<real>,
    suggestedPremium: real,
    payoutProbability: real,
    elRatio: Option<real>,
    epCurve: seq<(real, real)>)

  /** The pass from raw losses to the report, every metric taken from the same layer-loss sample. */
  function Assess(losses: seq<real>, terms: TreatyTerms): (r: Result<Report, AssessError>)
    ensures r.Failure? <==> |losses| == 0
    ensures r.Success? ==>
              && |r.value.layerLosses| == |losses|
              && |r.value.sortedLosses| == |losses|
              && |r.value.returnPeriods| == |losses|
              && |r.value.epCurve| == |losses|
  {
    if |losses| == 0 then Failure(InsufficientData)
    else
      var layer := LayerLosses(losses, terms);
      var el := Mean(layer);
      var variance := Variance(layer);
      var sorted := SortedLosses(layer);
      var periods := ReturnPeriods(|layer|);
      Success(Report(
        layerLosses := layer,
        expectedLoss := el,
        variance := variance,
        cvSquared := CvSquared(variance, el),
        sortedLosses := sorted,
        returnPeriods := periods,
        loss1In200 := Loss1In200(sorted),
        suggestedPremium := SuggestedPremium(el),
        payoutProbability := PayoutProbability(layer),
        elRatio := ElRatio(el, terms.limit),
        epCurve := EpCurve(periods, sorted)))
  }

  /**
   * The scalar metrics of a report: payout probability in [0, 1]; with a
   * non-negative limit, EL in [0, limit] and the CV unavailable exactly
   * when no year pays out; the premium is EL loaded by 55%; the EL ratio is
   * unavailable exactly for a zero limit and a percentage for a positive one.
   */
  lemma ReportMetrics(losses: seq<real>, terms: TreatyTerms)
    requires |losses| > 0
    ensures var rep := Assess(losses, terms).value;
            && 0.0 <= rep.payoutProbability <= 1.0
            && (rep.cvSquared.None? <==> rep.expectedLoss == 0.0)
            && rep.suggestedPremium == 1.55 * rep.expectedLoss
            && (rep.elRatio.None? <==> terms.limit == 0.0)
            && (terms.limit >= 0.0 ==>
                  && 0.0 <= rep.expectedLoss <= terms.limit
                  && rep.suggestedPremium >= rep.expectedLoss
                  && (rep.cvSquared.None? <==> rep.payoutProbability == 0.0))
            && (terms.limit > 0.0 ==> 0.0 <= rep.elRatio.value <= 100.0)
  {
    var layer := LayerLosses(losses, terms);
    if terms.limit >= 0.0 {
      ExpectedLossBounds(losses, terms);
      ExpectedLossZeroIffNoPayout(layer);
    }
    if terms.limit > 0.0 {
      ElRatioBounds(Mean(layer), terms.limit);
    }
  }

  /**
   * The curve of a report: the sorted losses are the layer losses rearranged
   * largest first, with the same mean (one snapshot feeds every metric);
   * return periods run from N down to 1; the 1-in-200 loss is present exactly
   * when N >= 200 and then sits at rank N / 200.
   */
  lemma ReportCurve(losses: seq<real>, terms: TreatyTerms)
    requires |losses| > 0
    ensures var rep := Assess(losses, terms).value;
            var n := |losses|;
            && multiset(rep.sortedLosses) == multiset(rep.layerLosses)
            && Descending(rep.sortedLosses)
            && Mean(rep.sortedLosses) == rep.expectedLoss
            && rep.returnPeriods[0] == n as real
            && rep.returnPeriods[n - 1] == 1.0
            && (rep.loss1In200.Some? <==> n >= 200)
            && (rep.loss1In200.Some? ==> rep.loss1In200.value == rep.sortedLosses[n / 200])
            && (forall i :: 0 <= i < n ==> rep.epCurve[i] == (n as real / (i + 1) as real, rep.sortedLosses[i]))
  {
    var layer := LayerLosses(losses, terms);
    var sorted := SortedLosses(layer);
    var periods := ReturnPeriods(|layer|);
    SortedCurveFacts(layer, sorted, periods);
    var rep := Assess(losses, terms).value;
    assert rep.layerLosses == layer && rep.sortedLosses == sorted;
    assert rep.expectedLoss == Mean(layer);
    assert rep.returnPeriods == periods && rep.epCurve == EpCurve(periods, sorted);
    assert rep.loss1In200 == Loss1In200(sorted);
  }

  lemma SortedCurveFacts(layer: seq<real>, sorted: seq<real>, periods: seq<real>)
    requires |layer| > 0
    requires sorted == SortedLosses(layer) && periods == ReturnPeriods(|layer|)
    ensures Mean(sorted) == Mean(layer)
    ensures periods[0] == |layer| as real && periods[|layer| - 1] == 1.0
    ensures forall i :: 0 <= i < |layer| ==>
              EpCurve(periods, sorted)[i] == (|layer| as real / (i + 1) as real, sorted[i])
  {
    SumPermutation(sorted, layer);
    ReturnPeriodsShape(|layer|);
  }

  /**
   * The sample year by year under a 50M xs 20M layer with no deductible.
   * Splitting on the year lets each case evaluate one literal layer loss
   * on its own: 0 and 10M fall below the 20M attachment, 30M pays 10M, and
   * 60M pays 40M, which is inside the 50M limit.
   */
  lemma ExampleYear(i: nat)
    requires i < 4
    ensures LayerLoss([0.0, 10000000.0, 30000000.0, 60000000.0][i], TreatyTerms(0.0, 20000000.0, 50000000.0))
            == [0.0, 0.0, 10000000.0, 40000000.0][i]
  {
    if i == 0 {
    } else if i == 1 {
    } else if i == 2 {
    } else {
    }
  }

  /**
   * Raw losses 0, 10M, 30M and 60M under a 50M xs 20M layer with no
   * deductible: layer losses 0, 0, 10M and 40M, EL 12.5M, a 50% chance of
   * payout and a 40M maximum.
   */
  lemma WorkedExample(losses: seq<real>, terms: TreatyTerms)
    requires losses == [0.0, 10000000.0, 30000000.0, 60000000.0]
    requires terms == TreatyTerms(0.0, 20000000.0, 50000000.0)
    ensures var rep := Assess(losses, terms).value;
            && rep.layerLosses == [0.0, 0.0, 10000000.0, 40000000.0]
            && rep.expectedLoss == 12500000.0
            && rep.payoutProbability == 0.5
            && rep.suggestedPremium == 19375000.0
            && rep.elRatio == Some(25.0)
            && rep.sortedLosses[0] == 40000000.0
            && rep.loss1In200 == None
  {
    ExampleLayer(losses, terms);
    var layer := LayerLosses(losses, terms);
    ExampleMean(layer);
    ExampleCount(layer);
    ExampleMaximum(layer);
  }

  lemma ExampleLayer(losses: seq<real>, terms: TreatyTerms)
    requires losses == [0.0, 10000000.0, 30000000.0, 60000000.0]
    requires terms == TreatyTerms(0.0, 20000000.0, 50000000.0)
    ensures LayerLosses(losses, terms) == [0.0, 0.0, 10000000.0, 40000000.0]
  {
    forall i | 0 <= i < 4
      ensures LayerLosses(losses, terms)[i] == [0.0, 0.0, 10000000.0, 40000000.0][i]
    {
      ExampleYear(i);
    }
  }

  lemma ExampleMean(layer: seq<real>)
    requires layer == [0.0, 0.0, 10000000.0, 40000000.0]
    ensures Mean(layer) == 12500000.0
  {
    ExampleSum(layer);
  }

  lemma ExampleSum(layer: seq<real>)
    requires layer == [0.0, 0.0, 10000000.0, 40000000.0]
    ensures Sum(layer) == 50000000.0
  {
    assert layer[1..][1..][1..] == [40000000.0];
    assert Sum(layer[1..][1..][1..]) == 40000000.0;
    assert layer[1..][1..] == [10000000.0, 40000000.0];
    assert Sum(layer[1..][1..]) == 50000000.0;
    assert layer[1..] == [0.0, 10000000.0, 40000000.0];
  }

  lemma ExampleCount(layer: seq<real>)
    requires layer == [0.0, 0.0, 10000000.0, 40000000.0]
    ensures PayoutProbability(layer) == 0.5
  {
    ExampleCountAbove(layer);
  }

  lemma ExampleCountAbove(layer: seq<real>)
    requires layer == [0.0, 0.0, 10000000.0, 40000000.0]
    ensures CountAbove(layer, 0.0) == 2
  {
    var tail := layer[1..][1..][1..];
    assert tail == [40000000.0] && tail[1..] == [];
    assert CountAbove(tail, 0.0) == 1;
    assert CountAbove(layer[1..][1..], 0.0) == 2;
    assert CountAbove(layer[1..], 0.0) == 2;
  }

  lemma ExampleMaximum(layer: seq<real>)
    requires layer == [0.0, 0.0, 10000000.0, 40000000.0]
    ensures SortedLosses(layer)[0] == 40000000.0
  {
    SortedLossesFirstIsMax(layer);
    assert layer[3] <= SortedLosses(layer)[0];
  }

  /** A single simulated year of 5M under a 10M limit: a one-point curve at return period 1, and no 1-in-200 loss. */
  lemma SingleYearExample(losses: seq<real>, terms: TreatyTerms)
    requires losses == [5000000.0]
    requires terms == TreatyTerms(0.0, 0.0, 10000000.0)
    ensures Assess(losses, terms).Success?
    ensures Assess(losses, terms).value.epCurve == [(1.0, 5000000.0)]
    ensures Assess(losses, terms).value.loss1In200 == None
  {
    SingleYearLayer(losses, terms);
    var layer := LayerLosses(losses, terms);
    SingleYearCurve(layer);
    var rep := Assess(losses, terms).value;
    assert rep.epCurve == EpCurve(ReturnPeriods(|layer|), SortedLosses(layer));
    assert rep.loss1In200 == Loss1In200(SortedLosses(layer));
  }

  lemma SingleYearLayer(losses: seq<real>, terms: TreatyTerms)
    requires losses == [5000000.0]
    requires terms == TreatyTerms(0.0, 0.0, 10000000.0)
    ensures LayerLosses(losses, terms) == [5000000.0]
  {
    assert LayerLosses(losses, terms)[0] == LayerLoss(5000000.0, terms);
  }

  lemma SingleYearCurve(layer: seq<real>)
    requires layer == [5000000.0]
    ensures EpCurve(ReturnPeriods(1), SortedLosses(layer)) == [(1.0, 5000000.0)]
    ensures Loss1In200(SortedLosses(layer)) == None
  {
    var sorted := SortedLosses(layer);
    assert sorted[0] in multiset(layer);
    assert sorted == layer;
    ReturnPeriodsShape(1);
    assert ReturnPeriods(1) == [1.0];
  }

  /**
   * A sample of zero losses under a positive limit: EL zero, the CV
   * unavailable, no payout year and a zero maximum.
   */
  lemma AllZeroExample(n: nat, terms: TreatyTerms)
    requires n > 0
    requires terms.deductible >= 0.0 && terms.attachment >= 0.0 && terms.limit > 0.0
    ensures var rep := Assess(seq(n, _ => 0.0), terms).value;
            && rep.expectedLoss == 0.0
            && rep.cvSquared.None?
            && rep.payoutProbability == 0.0
            && rep.sortedLosses[0] == 0.0
  {
    var layer := LayerLosses(seq(n, _ => 0.0), terms);
    assert forall i :: 0 <= i < n ==> layer[i] == 0.0;
    MeanBounds(layer, 0.0, 0.0);
    SortedLossesFirstIsMax(layer);
  }
}
