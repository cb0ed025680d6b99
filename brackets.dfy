/** Walks over a bracket table. The social-security contribution sums a
    slice of the salary per bracket (marginal brackets); the income tax picks
    the one band the base falls into. */
module Brackets {
  import opened Types

  /** The limits climb strictly, starting above `prev`; only the last
      bracket may be unbounded. */
  predicate LimitsAscendFrom(bs: seq<TaxBracket>, prev: real)
    decreases |bs|
  {
    bs == [] ||
    match bs[0].limit
    case Unbounded => |bs| == 1
    case Finite(l) => prev < l && LimitsAscendFrom(bs[1..], l)
  }

  predicate RatesNonNegative(bs: seq<TaxBracket>) {
    forall i :: 0 <= i < |bs| ==> bs[i].rate >= 0.0
  }

  predicate RatesIncrease(bs: seq<TaxBracket>) {
    forall i, j :: 0 <= i < j < |bs| ==> bs[i].rate < bs[j].rate
  }

  predicate DeductionsIncrease(bs: seq<TaxBracket>) {
    forall i, j :: 0 <= i < j < |bs| ==> bs[i].DeductionOrZero() < bs[j].DeductionOrZero()
  }

  /** What the contribution loop accumulates over `bs`, the previous limit
      being `prev`: each bracket taxes `min(s, limit) - prev` at its rate
      when that slice is positive, and the walk stops at the first bracket
      whose limit is at least `s`. */
  function SliceSum(bs: seq<TaxBracket>, prev: real, s: real): real
    decreases |bs|
  {
    if bs == [] then 0.0
    else
      var taxable := bs[0].limit.Min(s) - prev;
      (if taxable > 0.0 then taxable * bs[0].rate else 0.0)
      + (if bs[0].limit.Admits(s) then 0.0 else SliceSum(bs[1..], bs[0].limit.value, s))
  }

  /** The part of `s` that falls in a bracket running from `prev` to its
      limit, taxed at the bracket's rate. */
  function Slice(b: TaxBracket, prev: real, s: real): real {
    var part := b.limit.Min(s) - prev;
    (if part > 0.0 then part else 0.0) * b.rate
  }

  /** Dropping the first bracket keeps the rates non-negative. */
  lemma RatesNonNegativeTail(bs: seq<TaxBracket>)
    requires bs != [] && RatesNonNegative(bs)
    ensures RatesNonNegative(bs[1..])
  {
    forall i | 0 <= i < |bs[1..]| ensures bs[1..][i].rate >= 0.0 {
      assert bs[1..][i] == bs[i + 1];
    }
  }

  /** With non-negative rates the loop never accumulates a negative amount. */
  lemma {:induction false} SliceSumNonNegative(bs: seq<TaxBracket>, prev: real, s: real)
    requires RatesNonNegative(bs)
    ensures SliceSum(bs, prev, s) >= 0.0
    decreases |bs|
  {
    if bs != [] {
      var taxable := bs[0].limit.Min(s) - prev;
      assert (if taxable > 0.0 then taxable * bs[0].rate else 0.0) >= 0.0;
      if !bs[0].limit.Admits(s) {
        RatesNonNegativeTail(bs);
        SliceSumNonNegative(bs[1..], bs[0].limit.value, s);
      }
    }
  }

  /** Textbook marginal tax: the sum over every bracket of its slice,
      with no early exit. */
  function MarginalSum(bs: seq<TaxBracket>, prev: real, s: real): real
    decreases |bs|
  {
    if bs == [] then 0.0
    else
      Slice(bs[0], prev, s)
      + match bs[0].limit
        case Unbounded => 0.0
        case Finite(l) => MarginalSum(bs[1..], l, s)
  }

  /** Above every bracket that starts at or over `s` nothing is taxed. */
  lemma {:induction false} MarginalSumVanishes(bs: seq<TaxBracket>, prev: real, s: real)
    requires LimitsAscendFrom(bs, prev)
    requires s <= prev
    ensures MarginalSum(bs, prev, s) == 0.0
    decreases |bs|
  {
    if bs != [] {
      assert Slice(bs[0], prev, s) == 0.0;
      match bs[0].limit
      case Unbounded =>
      case Finite(l) => MarginalSumVanishes(bs[1..], l, s);
    }
  }

  /** Stopping at the first bracket that holds `s` loses nothing: the early
      exit of the loop computes the full marginal sum. */
  lemma {:induction false} SliceSumIsMarginalSum(bs: seq<TaxBracket>, prev: real, s: real)
    requires LimitsAscendFrom(bs, prev)
    ensures SliceSum(bs, prev, s) == MarginalSum(bs, prev, s)
    decreases |bs|
  {
    if bs != [] {
      match bs[0].limit
      case Unbounded =>
      case Finite(l) =>
        if s <= l {
          MarginalSumVanishes(bs[1..], l, s);
        } else {
          SliceSumIsMarginalSum(bs[1..], l, s);
        }
    }
  }

  lemma SliceMonotone(b: TaxBracket, prev: real, s: real, t: real)
    requires b.rate >= 0.0
    requires s <= t
    ensures 0.0 <= Slice(b, prev, s) <= Slice(b, prev, t)
  {
    var p, q := b.limit.Min(s) - prev, b.limit.Min(t) - prev;
    var p', q' := if p > 0.0 then p else 0.0, if q > 0.0 then q else 0.0;
    assert 0.0 <= p' <= q';
    assert p' * b.rate <= q' * b.rate;
  }

  /** With non-negative rates the marginal sum is non-negative and never
      decreases as the salary grows. */
  lemma {:induction false} MarginalSumMonotone(bs: seq<TaxBracket>, prev: real, s: real, t: real)
    requires RatesNonNegative(bs)
    requires s <= t
    ensures 0.0 <= MarginalSum(bs, prev, s) <= MarginalSum(bs, prev, t)
    decreases |bs|
  {
    if bs != [] {
      SliceMonotone(bs[0], prev, s, t);
      match bs[0].limit
      case Unbounded =>
      case Finite(l) =>
        RatesNonNegativeTail(bs);
        MarginalSumMonotone(bs[1..], l, s, t);
    }
  }

  /** Index of the first bracket whose limit is at least `x`, or `|bs|` when
      there is none. */
  function FirstBracketAtLeast(bs: seq<TaxBracket>, x: real): (k: nat)
    ensures k <= |bs|
    ensures k < |bs| ==> bs[k].limit.Admits(x)
    ensures forall j :: 0 <= j < k ==> !bs[j].limit.Admits(x)
    decreases |bs|
  {
    if bs == [] then 0
    else if bs[0].limit.Admits(x) then 0
    else 1 + FirstBracketAtLeast(bs[1..], x)
  }

  /** A table whose last limit is unbounded always holds `x`, and the chosen
      bracket is the band `limit[k-1] < x <= limit[k]`. */
  lemma FirstBracketIsBand(bs: seq<TaxBracket>, x: real)
    requires bs != [] && bs[|bs| - 1].limit.Unbounded?
    ensures FirstBracketAtLeast(bs, x) < |bs|
    ensures var k := FirstBracketAtLeast(bs, x);
      0 < k ==> bs[k - 1].limit.Finite? && bs[k - 1].limit.value < x
  {
  }
}
