/**
 * Reductions over a sequence of annual losses: the `.sum()` and `.mean()`
 * of NumPy, and the count behind `(layer_losses > 0).sum()`.
 */
module Reductions {

  /** Total of all entries. */
  function Sum(s: seq<real>): real
  {
    if |s| == 0 then 0.0 else s[0] + Sum(s[1..])
  }

  /** Number of entries strictly above the threshold `t`. */
  function CountAbove(s: seq<real>, t: real): (r: nat)
    ensures r <= |s|
  {
    if |s| == 0 then 0 else (if s[0] > t then 1 else 0) + CountAbove(s[1..], t)
  }

  /** No entry is counted exactly when none exceeds the threshold. */
  lemma {:induction false} CountAboveNone(s: seq<real>, t: real)
    ensures CountAbove(s, t) == 0 <==> forall i :: 0 <= i < |s| ==> s[i] <= t
  {
    if |s| > 0 {
      CountAboveNone(s[1..], t);
      assert forall i :: 1 <= i < |s| ==> s[i] == s[1..][i - 1];
    }
  }

  /** Every entry is counted exactly when all exceed the threshold. */
  lemma {:induction false} CountAboveAll(s: seq<real>, t: real)
    ensures CountAbove(s, t) == |s| <==> forall i :: 0 <= i < |s| ==> s[i] > t
  {
    if |s| > 0 {
      CountAboveAll(s[1..], t);
      assert forall i :: 1 <= i < |s| ==> s[i] == s[1..][i - 1];
    }
  }

  /**
   * Arithmetic mean; the script only ever takes it of a non-empty sample.
   * N times the mean is the total, and non-negative entries have a
   * non-negative mean.
   */
  function Mean(s: seq<real>): (r: real)
    requires |s| > 0
    ensures r * |s| as real == Sum(s)
    ensures (forall i :: 0 <= i < |s| ==> s[i] >= 0.0) ==> r >= 0.0
  {
    var n := |s| as real;
    assert (forall i :: 0 <= i < |s| ==> s[i] >= 0.0) ==> Sum(s) >= 0.0 by {
      if forall i :: 0 <= i < |s| ==> s[i] >= 0.0 {
        SumNonNegative(s);
      }
    }
    assert Sum(s) / n * n == Sum(s);
    Sum(s) / n
  }

  lemma {:induction false} SumAppend(a: seq<real>, b: seq<real>)
    ensures Sum(a + b) == Sum(a) + Sum(b)
  {
    if |a| == 0 {
      assert a + b == b;
    } else {
      assert (a + b)[1..] == a[1..] + b;
      SumAppend(a[1..], b);
    }
  }

  lemma {:induction false} CountAboveAppend(a: seq<real>, b: seq<real>, t: real)
    ensures CountAbove(a + b, t) == CountAbove(a, t) + CountAbove(b, t)
  {
    if |a| == 0 {
      assert a + b == b;
    } else {
      assert (a + b)[1..] == a[1..] + b;
      CountAboveAppend(a[1..], b, t);
    }
  }

  /** Every entry within [lo, hi] puts the total within [n * lo, n * hi]. */
  lemma {:induction false} SumBounds(s: seq<real>, lo: real, hi: real)
    requires forall i :: 0 <= i < |s| ==> lo <= s[i] <= hi
    ensures |s| as real * lo <= Sum(s) <= |s| as real * hi
  {
    if |s| > 0 {
      SumBounds(s[1..], lo, hi);
      Distribute(|s[1..]| as real, lo);
      Distribute(|s[1..]| as real, hi);
    }
  }

  lemma Distribute(m: real, c: real)
    ensures (m + 1.0) * c == m * c + c
  {
  }

  /** The mean of entries within [lo, hi] lies within [lo, hi]. */
  lemma MeanBounds(s: seq<real>, lo: real, hi: real)
    requires |s| > 0
    requires forall i :: 0 <= i < |s| ==> lo <= s[i] <= hi
    ensures lo <= Mean(s) <= hi
  {
    SumBounds(s, lo, hi);
    CancelFactor(Mean(s), |s| as real, lo, hi, Sum(s));
  }

  lemma CancelFactor(m: real, n: real, lo: real, hi: real, total: real)
    requires n > 0.0 && m * n == total
    requires n * lo <= total <= n * hi
    ensures lo <= m <= hi
  {
  }

  /** Non-negative entries have a non-negative total. */
  lemma {:induction false} SumNonNegative(s: seq<real>)
    requires forall i :: 0 <= i < |s| ==> s[i] >= 0.0
    ensures Sum(s) >= 0.0
  {
    if |s| > 0 {
      SumNonNegative(s[1..]);
    }
  }

  /** A pointwise smaller sequence has a smaller total. */
  lemma {:induction false} SumMonotone(a: seq<real>, b: seq<real>)
    requires |a| == |b|
    requires forall i :: 0 <= i < |a| ==> a[i] <= b[i]
    ensures Sum(a) <= Sum(b)
  {
    if |a| > 0 {
      SumMonotone(a[1..], b[1..]);
    }
  }

  /** Removing the entry at `j` from `b`, as a sequence and as a multiset. */
  lemma RemoveAt(b: seq<real>, j: nat)
    requires j < |b|
    ensures b == b[..j] + [b[j]] + b[j + 1..]
    ensures multiset(b[..j] + b[j + 1..]) == multiset(b) - multiset{b[j]}
  {
    assert b == b[..j] + [b[j]] + b[j + 1..];
  }

  /** The total does not depend on the order of the entries. */
  lemma {:induction false} SumPermutation(a: seq<real>, b: seq<real>)
    requires multiset(a) == multiset(b)
    ensures Sum(a) == Sum(b)
  {
    if |a| == 0 {
      assert |b| == |multiset(b)| == 0;
    } else {
      assert a == [a[0]] + a[1..];
      assert a[0] in multiset(b);
      var j :| 0 <= j < |b| && b[j] == a[0];
      RemoveAt(b, j);
      var rest := b[..j] + b[j + 1..];
      SumPermutation(a[1..], rest);
      SumAppend(b[..j] + [b[j]], b[j + 1..]);
      SumAppend(b[..j], [b[j]]);
      SumAppend(b[..j], b[j + 1..]);
    }
  }

  /** The count above a threshold does not depend on the order of the entries. */
  lemma {:induction false} CountAbovePermutation(a: seq<real>, b: seq<real>, t: real)
    requires multiset(a) == multiset(b)
    ensures CountAbove(a, t) == CountAbove(b, t)
  {
    if |a| == 0 {
      assert |b| == |multiset(b)| == 0;
    } else {
      assert a == [a[0]] + a[1..];
      assert a[0] in multiset(b);
      var j :| 0 <= j < |b| && b[j] == a[0];
      RemoveAt(b, j);
      var rest := b[..j] + b[j + 1..];
      CountAbovePermutation(a[1..], rest, t);
      CountAboveAppend(b[..j] + [b[j]], b[j + 1..], t);
      CountAboveAppend(b[..j], [b[j]], t);
      CountAboveAppend(b[..j], b[j + 1..], t);
    }
  }

  /** A sequence of non-negative entries totals zero exactly when none is positive. */
  lemma {:induction false} SumZeroIffNonePositive(s: seq<real>)
    requires forall i :: 0 <= i < |s| ==> s[i] >= 0.0
    ensures Sum(s) == 0.0 <==> CountAbove(s, 0.0) == 0
  {
    if |s| > 0 {
      SumZeroIffNonePositive(s[1..]);
      SumNonNegative(s[1..]);
    }
  }

  /** Two sequences whose entries cross their thresholds in the same positions have equal counts. */
  lemma {:induction false} CountAboveCorresponding(a: seq<real>, s: real, b: seq<real>, t: real)
    requires |a| == |b|
    requires forall i :: 0 <= i < |a| ==> (a[i] > s <==> b[i] > t)
    ensures CountAbove(a, s) == CountAbove(b, t)
  {
    if |a| > 0 {
      CountAboveCorresponding(a[1..], s, b[1..], t);
    }
  }
}
