/**
 * Summary metrics of the layer-loss sample (tubbysnowplow.py lines 55-57
 * and 63-65): expected loss, dispersion, the CV guard, the premium
 * loading, the payout probability and the EL-to-limit ratio.
 */
module RiskMetrics {
  import opened Wrappers
  import opened Reductions
  import opened LayerTransform

  /** The fixed loading of the suggested premium over the expected loss. */
  const PremiumLoading: real := 1.55

  /** Total squared deviation of the entries from `m`. */
  function SquaredDeviations(s: seq<real>, m: real): (r: real)
    ensures r >= 0.0
    ensures (forall i :: 0 <= i < |s| ==> s[i] == m) ==> r == 0.0
  {
    if |s| == 0 then 0.0
    else
      SquareNonNegative(s[0] - m);
      assert forall i :: 1 <= i < |s| ==> s[i] == s[1..][i - 1];
      (s[0] - m) * (s[0] - m) + SquaredDeviations(s[1..], m)
  }

  /** `layer_losses.var()` with NumPy's default `ddof = 0`: the square of `layer_losses.std()`. */
  function Variance(layer: seq<real>): (r: real)
    requires |layer| > 0
    ensures r >= 0.0
    ensures (forall i :: 0 <= i < |layer| ==> layer[i] == layer[0]) ==> r == 0.0
  {
    assert (forall i :: 0 <= i < |layer| ==> layer[i] == layer[0]) ==> Mean(layer) == layer[0] by {
      if forall i :: 0 <= i < |layer| ==> layer[i] == layer[0] {
        MeanBounds(layer, layer[0], layer[0]);
      }
    }
    SquaredDeviations(layer, Mean(layer)) / |layer| as real
  }

  /**
   * The square of `std_dev / el`, that is `variance / el^2` (divided by `el`
   * twice), guarded as the script guards the coefficient of variation:
   * unavailable exactly when the expected loss is zero.
   */
  function CvSquared(variance: real, el: real): (r: Option<real>)
    ensures r.None? <==> el == 0.0
    ensures r.Some? ==> r.value * el * el == variance
    ensures r.Some? && variance >= 0.0 ==> r.value >= 0.0
  {
    if el != 0.0 then
      QuotientSign(variance, el);
      QuotientSign(variance / el, el);
      Some(variance / el / el)
    else None
  }

  /** `el * 1.55`: a positive expected loss is loaded upwards, never down. */
  function SuggestedPremium(el: real): (r: real)
    ensures el > 0.0 ==> r > el
    ensures el == 0.0 ==> r == 0.0
    ensures el < 0.0 ==> r < el
  {
    el * PremiumLoading
  }

  /** Share of simulated years in which the layer pays anything. */
  function PayoutProbability(layer: seq<real>): (r: real)
    requires |layer| > 0
    ensures 0.0 <= r <= 1.0
    ensures r == 0.0 <==> forall i :: 0 <= i < |layer| ==> layer[i] <= 0.0
    ensures r == 1.0 <==> forall i :: 0 <= i < |layer| ==> layer[i] > 0.0
  {
    var n := |layer| as real;
    var c := CountAbove(layer, 0.0) as real;
    CountAboveNone(layer, 0.0);
    CountAboveAll(layer, 0.0);
    Fraction(c, n);
    c / n
  }

  /**
   * `(el / limit) * 100`, in percent; a zero limit gives NumPy's NaN, here
   * an unavailable value.
   */
  function ElRatio(el: real, limit: real): (r: Option<real>)
    ensures r.None? <==> limit == 0.0
    ensures r.Some? ==> r.value * limit == el * 100.0
  {
    if limit == 0.0 then None else Some(el / limit * 100.0)
  }

  lemma SquareNonNegative(d: real)
    ensures d * d >= 0.0
    ensures d == 0.0 ==> d * d == 0.0
  {
    if d < 0.0 {
      var e := -d;
      assert e * e > 0.0;
      assert d * d == e * e;
    }
  }

  /** Dividing by a non-zero `d` is undone by multiplying back; the quotient's sign follows the signs of `x` and `d`. */
  lemma QuotientSign(x: real, d: real)
    requires d != 0.0
    ensures x / d * d == x
    ensures x >= 0.0 && d > 0.0 ==> x / d >= 0.0
    ensures x >= 0.0 && d < 0.0 ==> x / d <= 0.0
    ensures x <= 0.0 && d < 0.0 ==> x / d >= 0.0
  {
    assert x / d * d == x;
  }

  lemma Fraction(c: real, n: real)
    requires 0.0 <= c <= n && n > 0.0
    ensures 0.0 <= c / n <= 1.0
    ensures c / n == 0.0 <==> c == 0.0
    ensures c / n == 1.0 <==> c == n
  {
    assert c / n * n == c;
  }

  /** With a non-negative limit the expected layer loss lies within [0, limit]. */
  lemma ExpectedLossBounds(losses: seq<real>, terms: TreatyTerms)
    requires |losses| > 0 && terms.limit >= 0.0
    ensures 0.0 <= Mean(LayerLosses(losses, terms)) <= terms.limit
  {
    MeanBounds(LayerLosses(losses, terms), 0.0, terms.limit);
  }

  /**
   * Raising the deductible or the attachment never increases the expected
   * loss; raising the limit never decreases it.
   */
  lemma ExpectedLossMonotone(losses: seq<real>, tight: TreatyTerms, loose: TreatyTerms)
    requires |losses| > 0
    requires Tighter(tight, loose)
    ensures Mean(LayerLosses(losses, tight)) <= Mean(LayerLosses(losses, loose))
  {
    var a := LayerLosses(losses, tight);
    var b := LayerLosses(losses, loose);
    LayerLossesMonotone(losses, tight, loose);
    SumMonotone(a, b);
    DivideMonotone(Sum(a), Sum(b), |losses| as real);
  }

  lemma DivideMonotone(x: real, y: real, n: real)
    requires x <= y && n > 0.0
    ensures x / n <= y / n
  {
    assert x / n * n == x;
    assert y / n * n == y;
  }

  /**
   * For a sample of non-negative layer losses, the expected loss is zero
   * exactly when no year pays out, so the coefficient of variation is
   * unavailable exactly when the payout probability is zero.
   */
  lemma ExpectedLossZeroIffNoPayout(layer: seq<real>)
    requires |layer| > 0
    requires forall i :: 0 <= i < |layer| ==> layer[i] >= 0.0
    ensures Mean(layer) == 0.0 <==> PayoutProbability(layer) == 0.0
  {
    SumZeroIffNonePositive(layer);
    ZeroQuotient(Sum(layer), |layer| as real);
  }

  lemma ZeroQuotient(x: real, n: real)
    requires n > 0.0
    ensures x / n == 0.0 <==> x == 0.0
  {
    assert x / n * n == x;
  }

  /** With a positive limit, the EL ratio of a layer's expected loss is a percentage in [0, 100]. */
  lemma ElRatioBounds(el: real, limit: real)
    requires limit > 0.0 && 0.0 <= el <= limit
    ensures ElRatio(el, limit).Some?
    ensures 0.0 <= ElRatio(el, limit).value <= 100.0
  {
    var r := ElRatio(el, limit).value;
    assert r * limit == el * 100.0;
    assert r * limit <= limit * 100.0;
  }

  /**
   * With a non-negative attachment and a positive limit, the layer pays in
   * exactly the years whose raw loss exceeds deductible plus attachment.
   */
  lemma PayoutYearsExceedRetention(losses: seq<real>, terms: TreatyTerms)
    requires terms.attachment >= 0.0 && terms.limit > 0.0
    ensures CountAbove(LayerLosses(losses, terms), 0.0)
            == CountAbove(losses, terms.deductible + terms.attachment)
  {
    PaysExactlyAboveRetention(losses, terms, LayerLosses(losses, terms));
    CountAboveCorresponding(LayerLosses(losses, terms), 0.0, losses, terms.deductible + terms.attachment);
  }

  lemma PaysExactlyAboveRetention(losses: seq<real>, terms: TreatyTerms, layer: seq<real>)
    requires terms.attachment >= 0.0 && terms.limit > 0.0
    requires layer == LayerLosses(losses, terms)
    ensures |layer| == |losses|
    ensures forall i :: 0 <= i < |losses| ==>
              (layer[i] > 0.0 <==> losses[i] > terms.deductible + terms.attachment)
  {
    forall i | 0 <= i < |losses|
      ensures layer[i] > 0.0 <==> losses[i] > terms.deductible + terms.attachment
    {
      assert layer[i] == LayerLoss(losses[i], terms);
    }
  }
}
