/**
 * The treaty layer transform: each simulated annual loss is eroded by the
 * deductible, then by the attachment point, and what remains is capped at
 * the limit (tubbysnowplow.py lines 53-54).
 */
module LayerTransform {

  /** The three monetary terms of the treaty; the script puts no sign constraint on them. */
  datatype TreatyTerms = TreatyTerms(deductible: real, attachment: real, limit: real)

  function Max(a: real, b: real): real
  {
    if a >= b then a else b
  }

  function Min(a: real, b: real): real
  {
    if a <= b then a else b
  }

  /** `np.maximum(x - deductible, 0)`: the loss left after the deductible, never negative. */
  function GrossLoss(x: real, deductible: real): (r: real)
    ensures r >= 0.0 && r >= x - deductible
    ensures r == 0.0 <==> x <= deductible
    ensures r > 0.0 ==> r == x - deductible
  {
    Max(x - deductible, 0.0)
  }

  /**
   * `np.clip(v, lo, hi)`, which is `minimum(maximum(v, lo), hi)`: with ordered
   * bounds, values below `lo` become `lo`, values above `hi` become `hi` and the
   * rest are kept; when `lo > hi` the result is `hi` itself.
   */
  function Clip(v: real, lo: real, hi: real): (r: real)
    ensures lo <= hi ==> lo <= r <= hi
    ensures lo <= hi && v < lo ==> r == lo
    ensures lo <= hi && v > hi ==> r == hi
    ensures lo <= hi && lo <= v <= hi ==> r == v
    ensures lo > hi ==> r == hi
  {
    Min(Max(v, lo), hi)
  }

  /** The part of one annual loss that the treaty layer pays. */
  function LayerLoss(x: real, terms: TreatyTerms): (r: real)
    ensures terms.limit >= 0.0 ==> 0.0 <= r <= terms.limit
    ensures terms.limit < 0.0 ==> r == terms.limit
    ensures terms.attachment >= 0.0 ==>
              (r > 0.0 <==> terms.limit > 0.0 && x > terms.deductible + terms.attachment)
  {
    Clip(GrossLoss(x, terms.deductible) - terms.attachment, 0.0, terms.limit)
  }

  /** The layer transform applied year by year: entry `i` depends on raw loss `i` and the terms only. */
  function LayerLosses(losses: seq<real>, terms: TreatyTerms): (r: seq<real>)
    ensures |r| == |losses|
    ensures forall i :: 0 <= i < |losses| ==> r[i] == LayerLoss(losses[i], terms)
    ensures terms.limit >= 0.0 ==> forall i :: 0 <= i < |r| ==> 0.0 <= r[i] <= terms.limit
  {
    seq(|losses|, i requires 0 <= i < |losses| => LayerLoss(losses[i], terms))
  }

  /**
   * `tight` pays no more than `loose`: a deductible and an attachment at least
   * as high and a limit no higher.
   */
  predicate Tighter(tight: TreatyTerms, loose: TreatyTerms)
  {
    && tight.deductible >= loose.deductible
    && tight.attachment >= loose.attachment
    && tight.limit <= loose.limit
  }

  /**
   * Raising the deductible or the attachment never increases a layer loss,
   * raising the limit never decreases it, and a larger raw loss never pays less.
   */
  lemma LayerLossMonotone(x: real, y: real, tight: TreatyTerms, loose: TreatyTerms)
    requires x <= y
    requires Tighter(tight, loose)
    ensures LayerLoss(x, tight) <= LayerLoss(y, loose)
  {
  }

  /** The year-by-year form of LayerLossMonotone. */
  lemma LayerLossesMonotone(losses: seq<real>, tight: TreatyTerms, loose: TreatyTerms)
    requires Tighter(tight, loose)
    ensures forall i :: 0 <= i < |losses| ==>
              LayerLosses(losses, tight)[i] <= LayerLosses(losses, loose)[i]
  {
    forall i | 0 <= i < |losses|
      ensures LayerLosses(losses, tight)[i] <= LayerLosses(losses, loose)[i]
    {
      LayerLossMonotone(losses[i], losses[i], tight, loose);
    }
  }

  /**
   * With a non-negative attachment and limit the layer is the slice of
   * the loss between `deductible + attachment` and `deductible + attachment + limit`.
   */
  lemma LayerLossIsSlice(x: real, terms: TreatyTerms)
    requires terms.attachment >= 0.0 && terms.limit >= 0.0
    ensures var retention := terms.deductible + terms.attachment;
            LayerLoss(x, terms) == Min(Max(x, retention), retention + terms.limit) - retention
  {
  }
}
