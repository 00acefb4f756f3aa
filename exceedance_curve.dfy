/**
 * The exceedance-probability curve: the layer losses in descending order,
 * each paired with its empirical return period, and the 1-in-200-year loss
 * read off that order (tubbysnowplow.py lines 59-61 and 67-70).
 */
module ExceedanceCurve {
  import opened Wrappers
  import opened Reductions

  ghost predicate Ascending(s: seq<real>)
  {
    forall i, j :: 0 <= i < j < |s| ==> s[i] <= s[j]
  }

  ghost predicate Descending(s: seq<real>)
  {
    forall i, j :: 0 <= i < j < |s| ==> s[i] >= s[j]
  }

  /** Inserts `x` into an ascending sequence, before the first entry not below it. */
  function Insert(x: real, s: seq<real>): (r: seq<real>)
    ensures |r| == |s| + 1
    ensures multiset(r) == multiset(s) + multiset{x}
    ensures r[0] == if |s| == 0 || x <= s[0] then x else s[0]
  {
    if |s| == 0 || x <= s[0] then [x] + s
    else
      var rest := Insert(x, s[1..]);
      assert s == [s[0]] + s[1..];
      assert multiset([s[0]] + rest) == multiset{s[0]} + multiset(s[1..]) + multiset{x};
      [s[0]] + rest
  }

  /** Inserting into an ascending sequence keeps it ascending. */
  lemma {:induction false} InsertAscending(x: real, s: seq<real>)
    requires Ascending(s)
    ensures Ascending(Insert(x, s))
  {
    if |s| == 0 || x <= s[0] {
      PrependAscending(x, s);
    } else {
      AscendingTail(s);
      InsertAscending(x, s[1..]);
      PrependAscending(s[0], Insert(x, s[1..]));
    }
  }

  lemma AscendingTail(a: seq<real>)
    requires Ascending(a) && |a| > 0
    ensures Ascending(a[1..])
  {
    forall i, j | 0 <= i < j < |a[1..]|
      ensures a[1..][i] <= a[1..][j]
    {
      assert a[1..][i] == a[i + 1] && a[1..][j] == a[j + 1];
    }
  }

  lemma PrependAscending(a: real, rest: seq<real>)
    requires Ascending(rest)
    requires |rest| > 0 ==> a <= rest[0]
    ensures Ascending([a] + rest)
  {
    var r := [a] + rest;
    forall i, j | 0 <= i < j < |r|
      ensures r[i] <= r[j]
    {
      assert r[j] == rest[j - 1];
      if i > 0 {
        assert r[i] == rest[i - 1];
      }
    }
  }

  /** `np.sort`: the losses in ascending order. */
  function SortAscending(s: seq<real>): (r: seq<real>)
    ensures |r| == |s|
    ensures multiset(r) == multiset(s)
    ensures Ascending(r)
  {
    if |s| == 0 then []
    else
      assert s == [s[0]] + s[1..];
      InsertAscending(s[0], SortAscending(s[1..]));
      Insert(s[0], SortAscending(s[1..]))
  }

  /** `[::-1]`: the same entries, last first. */
  function Reversed(s: seq<real>): (r: seq<real>)
    ensures |r| == |s|
    ensures forall i :: 0 <= i < |s| ==> r[i] == s[|s| - 1 - i]
    ensures multiset(r) == multiset(s)
  {
    if |s| == 0 then []
    else
      assert s == s[..|s| - 1] + [s[|s| - 1]];
      [s[|s| - 1]] + Reversed(s[..|s| - 1])
  }

  /** `np.sort(layer_losses)[::-1]`: the layer losses, largest first. */
  function SortedLosses(layer: seq<real>): (r: seq<real>)
    ensures |r| == |layer|
    ensures multiset(r) == multiset(layer)
    ensures Descending(r)
  {
    Reversed(SortAscending(layer))
  }

  /**
   * There is only one descending arrangement of a multiset of losses, so the
   * curve does not depend on how the sort breaks ties.
   */
  lemma {:induction false} DescendingPermutationUnique(a: seq<real>, b: seq<real>)
    requires Descending(a) && Descending(b)
    requires multiset(a) == multiset(b)
    ensures a == b
  {
    if |a| == 0 {
      assert |b| == |multiset(b)| == 0;
    } else {
      assert |b| == |multiset(b)| == |a|;
      MultisetTail(a);
      MultisetTail(b);
      DescendingHeadIsMax(a, b[0]);
      DescendingHeadIsMax(b, a[0]);
      assert a[0] == b[0];
      assert multiset(a[1..]) == multiset(b[1..]);
      DescendingTail(a);
      DescendingTail(b);
      DescendingPermutationUnique(a[1..], b[1..]);
    }
  }

  lemma MultisetTail(a: seq<real>)
    requires |a| > 0
    ensures a == [a[0]] + a[1..]
    ensures a[0] in multiset(a)
    ensures multiset(a[1..]) == multiset(a) - multiset{a[0]}
  {
    assert a == [a[0]] + a[1..];
  }

  lemma DescendingHeadIsMax(a: seq<real>, x: real)
    requires Descending(a) && x in multiset(a)
    ensures |a| > 0 && x <= a[0]
  {
    var i :| 0 <= i < |a| && a[i] == x;
  }

  lemma DescendingTail(a: seq<real>)
    requires Descending(a) && |a| > 0
    ensures Descending(a[1..])
  {
    forall i, j | 0 <= i < j < |a[1..]|
      ensures a[1..][i] >= a[1..][j]
    {
      assert a[1..][i] == a[i + 1] && a[1..][j] == a[j + 1];
    }
  }

  /** The first sorted loss is the largest layer loss (the sample maximum). */
  lemma SortedLossesFirstIsMax(layer: seq<real>)
    requires |layer| > 0
    ensures SortedLosses(layer)[0] in layer
    ensures forall i :: 0 <= i < |layer| ==> layer[i] <= SortedLosses(layer)[0]
  {
    var sorted := SortedLosses(layer);
    assert sorted[0] in multiset(layer);
    forall i | 0 <= i < |layer|
      ensures layer[i] <= sorted[0]
    {
      assert layer[i] in multiset(sorted);
    }
  }

  /** `[1 / ((i + 1) / n) for i in range(n)]`: the empirical return period of each rank. */
  function ReturnPeriods(n: nat): (r: seq<real>)
    ensures |r| == n
  {
    seq(n, i requires 0 <= i < n => 1.0 / ((i + 1) as real / n as real))
  }

  lemma ReturnPeriodAt(n: nat, i: nat)
    requires i < n
    ensures ReturnPeriods(n)[i] == n as real / (i + 1) as real
  {
    var q := (i + 1) as real / n as real;
    assert q * n as real == (i + 1) as real;
  }

  /**
   * Rank `i` gets return period `n / (i + 1)`: the largest loss gets `n`, the
   * smallest gets 1, and the periods strictly decrease with rank.
   */
  lemma ReturnPeriodsShape(n: nat)
    ensures forall i :: 0 <= i < n ==> ReturnPeriods(n)[i] == n as real / (i + 1) as real
    ensures n > 0 ==> ReturnPeriods(n)[0] == n as real && ReturnPeriods(n)[n - 1] == 1.0
    ensures forall i, j :: 0 <= i < j < n ==> ReturnPeriods(n)[i] > ReturnPeriods(n)[j]
  {
    forall i | 0 <= i < n
      ensures ReturnPeriods(n)[i] == n as real / (i + 1) as real
    {
      ReturnPeriodAt(n, i);
    }
    forall i, j | 0 <= i < j < n
      ensures ReturnPeriods(n)[i] > ReturnPeriods(n)[j]
    {
      ReturnPeriodAt(n, i);
      ReturnPeriodAt(n, j);
      DivisionAntitone(n as real, (i + 1) as real, (j + 1) as real);
    }
  }

  lemma DivisionAntitone(x: real, a: real, b: real)
    requires x > 0.0 && 0.0 < a < b
    ensures x / a > x / b
  {
    assert x / a * a == x;
    assert x / b * b == x;
    assert x / b * a < x / b * b;
  }

  /**
   * The 1-in-200-year loss: the sorted loss at rank `n / 200`, available only
   * with at least 200 simulated years; the rank is then always in range.
   */
  function Loss1In200(sorted: seq<real>): (r: Option<real>)
    ensures r.Some? <==> |sorted| >= 200
    ensures r.Some? ==> |sorted| / 200 < |sorted| && r.value == sorted[|sorted| / 200]
  {
    if |sorted| >= 200 then Some(sorted[|sorted| / 200]) else None
  }

  /** In a descending sequence at most `k` entries exceed the entry at rank `k`. */
  lemma DescendingCountAboveRank(t: seq<real>, k: nat)
    requires Descending(t) && k < |t|
    ensures CountAbove(t, t[k]) <= k
  {
    assert t == t[..k] + t[k..];
    CountAboveAppend(t[..k], t[k..], t[k]);
    assert forall m :: 0 <= m < |t[k..]| ==> t[k..][m] == t[k + m];
    CountAboveNone(t[k..], t[k]);
  }

  /** In a descending sequence more than `k` entries exceed any level below the entry at rank `k`. */
  lemma DescendingCountBelowRank(t: seq<real>, k: nat, w: real)
    requires Descending(t) && k < |t| && w < t[k]
    ensures CountAbove(t, w) > k
  {
    assert t == t[..k + 1] + t[k + 1..];
    CountAboveAppend(t[..k + 1], t[k + 1..], w);
    assert forall m :: 0 <= m < k + 1 ==> t[..k + 1][m] == t[m];
    CountAboveAll(t[..k + 1], w);
  }

  /**
   * For any descending arrangement `sorted` of the sample, at most `k` years
   * exceed the loss at rank `k`, and every lower level is exceeded in more
   * than `k` years.
   */
  lemma ExceedanceAtRank(layer: seq<real>, sorted: seq<real>, k: nat)
    requires Descending(sorted) && multiset(sorted) == multiset(layer) && k < |sorted|
    ensures CountAbove(layer, sorted[k]) <= k
    ensures forall w :: w < sorted[k] ==> CountAbove(layer, w) > k
  {
    CountAbovePermutation(layer, sorted, sorted[k]);
    DescendingCountAboveRank(sorted, k);
    forall w | w < sorted[k]
      ensures CountAbove(layer, w) > k
    {
      CountAbovePermutation(layer, sorted, w);
      DescendingCountBelowRank(sorted, k, w);
    }
  }

  /**
   * Read off the descending order, the 1-in-200 loss is the empirical
   * 0.5% exceedance level: at most `n / 200` years exceed it, and every lower
   * level is exceeded in more than `n / 200` years.
   */
  lemma Loss1In200IsExceedanceLevel(layer: seq<real>)
    requires |layer| >= 200
    ensures Loss1In200(SortedLosses(layer)).Some?
    ensures CountAbove(layer, Loss1In200(SortedLosses(layer)).value) <= |layer| / 200
    ensures forall w :: w < Loss1In200(SortedLosses(layer)).value ==> CountAbove(layer, w) > |layer| / 200
  {
    var sorted := SortedLosses(layer);
    var k := |layer| / 200;
    assert k < |layer|;
    var v := Loss1In200(sorted).value;
    assert v == sorted[k];
    ExceedanceAtRank(layer, sorted, k);
    forall w | w < v
      ensures CountAbove(layer, w) > k
    {
      assert w < sorted[k];
    }
  }

  /** The EP curve table: one (return period, loss) row per rank. */
  function EpCurve(periods: seq<real>, sorted: seq<real>): (r: seq<(real, real)>)
    requires |periods| == |sorted|
    ensures |r| == |sorted|
    ensures forall i :: 0 <= i < |r| ==> r[i].0 == periods[i] && r[i].1 == sorted[i]
  {
    seq(|sorted|, i requires 0 <= i < |sorted| => (periods[i], sorted[i]))
  }

  /**
   * Along the curve built from one layer-loss sample, a later row has a
   * strictly shorter return period and a loss no larger; the first row pairs
   * the longest period, `n`, with the largest loss.
   */
  lemma EpCurveMonotone(layer: seq<real>)
    requires |layer| > 0
    ensures var curve := EpCurve(ReturnPeriods(|layer|), SortedLosses(layer));
            && curve[0].0 == |layer| as real
            && (forall i :: 0 <= i < |layer| ==> layer[i] <= curve[0].1)
            && forall i, j :: 0 <= i < j < |curve| ==> curve[i].0 > curve[j].0 && curve[i].1 >= curve[j].1
  {
    ReturnPeriodsShape(|layer|);
    SortedLossesFirstIsMax(layer);
  }
}
