/** Rates, their order, and the sums that must fit a budget
    (internal/node/limits/account.go, internal/controlplane/rates.go). */
module Rates {
  import opened Sums

  const TWO64: nat := 0x1_0000_0000_0000_0000
  const MAX_UINT64: nat := TWO64 - 1
  const MAX_BITS: nat := 0x20_0000_0000_0000
  const MAX_BURST: nat := 0x10_0000

  /** A 64-bit unsigned machine word. */
  type Word = x: nat | x < TWO64

  datatype Mode = Blocked | Limited | Unlimited

  /** One direction's rate. The burst is a machine integer that every reader
      converts to an unsigned word. */
  datatype Rate = Rate(mode: Mode, bits: Word, burst: Word)

  /** A rate in both directions. */
  datatype Pair = Pair(upload: Rate, download: Rate)

  const BLOCKED := Rate(Blocked, 0, 0)
  const UNLIMITED := Rate(Unlimited, 0, 0)
  const ZERO := Pair(BLOCKED, BLOCKED)

  /** What the policy validator accepts in one direction. */
  predicate Valid(r: Rate)
  {
    match r.mode
    case Limited => 1 <= r.bits <= MAX_BITS && 1 <= r.burst <= MAX_BURST
    case _ => r.bits == 0 && r.burst == 0
  }

  predicate ValidPair(p: Pair)
  {
    Valid(p.upload) && Valid(p.download)
  }

  /** `a` covers `b`: whoever enforces `b` stays within `a`. */
  predicate Covers(a: Rate, b: Rate)
  {
    || a.mode.Unlimited?
    || b.mode.Blocked?
    || (a.mode.Limited? && b.mode.Limited? && b.bits <= a.bits && b.burst <= a.burst)
  }

  predicate CoversPair(a: Pair, b: Pair)
  {
    Covers(a.upload, b.upload) && Covers(a.download, b.download)
  }

  function Envelope(a: Rate, b: Rate): Rate
  {
    if a.mode.Unlimited? || b.mode.Unlimited? then UNLIMITED
    else if a.mode.Blocked? then b
    else if b.mode.Blocked? then a
    else Rate(Limited, if a.bits < b.bits then b.bits else a.bits, if a.burst < b.burst then b.burst else a.burst)
  }

  function EnvelopePair(a: Pair, b: Pair): Pair
  {
    Pair(Envelope(a.upload, b.upload), Envelope(a.download, b.download))
  }

  function LowerRate(a: Rate, b: Rate): Rate
  {
    if a.mode.Blocked? || b.mode.Blocked? then BLOCKED
    else if a.mode.Unlimited? then b
    else if b.mode.Unlimited? then a
    else Rate(Limited, if a.bits < b.bits then a.bits else b.bits, if a.burst < b.burst then a.burst else b.burst)
  }

  /** On valid rates `Covers` is a partial order. */
  lemma CoversIsAPartialOrder(a: Rate, b: Rate, c: Rate)
    requires Valid(a) && Valid(b) && Valid(c)
    ensures Covers(a, a)
    ensures Covers(a, b) && Covers(b, c) ==> Covers(a, c)
    ensures Covers(a, b) && Covers(b, a) ==> a == b
  {
  }

  /** The envelope is the least rate that covers both its arguments. */
  lemma EnvelopeIsLeastUpperBound(a: Rate, b: Rate, c: Rate)
    requires Valid(a) && Valid(b) && Valid(c)
    ensures Valid(Envelope(a, b))
    ensures Covers(c, Envelope(a, b)) <==> Covers(c, a) && Covers(c, b)
    ensures Covers(a, b) <==> Envelope(a, b) == a
  {
  }

  /** The lower rate is the greatest rate both its arguments cover. */
  lemma LowerRateIsGreatestLowerBound(a: Rate, b: Rate, c: Rate)
    requires Valid(a) && Valid(b) && Valid(c)
    ensures Valid(LowerRate(a, b))
    ensures Covers(LowerRate(a, b), c) <==> Covers(a, c) && Covers(b, c)
    ensures Envelope(a, LowerRate(a, b)) == a
  {
  }

  function BitsOf(r: Rate): int
  {
    if r.mode.Limited? then r.bits else 0
  }

  function BurstOf(r: Rate): int
  {
    if r.mode.Limited? then r.burst else 0
  }

  function LimitedOf(r: Rate): int
  {
    if r.mode.Limited? then 1 else 0
  }

  function UnlimitedOf(r: Rate): int
  {
    if r.mode.Unlimited? then 1 else 0
  }

  /** The exact meaning of fitting: the true sums, over unbounded integers. */
  ghost predicate Fits(bound: Rate, values: seq<Rate>)
  {
    || bound.mode.Unlimited?
    || (&& Sum(values, UnlimitedOf) == 0
        && (bound.mode.Limited? || Sum(values, LimitedOf) == 0)
        && Sum(values, BitsOf) <= bound.bits
        && Sum(values, BurstOf) <= bound.burst)
  }

  lemma SumsAreNonNegative(values: seq<Rate>)
    ensures 0 <= Sum(values, UnlimitedOf) && 0 <= Sum(values, LimitedOf)
    ensures 0 <= Sum(values, BitsOf) && 0 <= Sum(values, BurstOf)
  {
    SumNonNegative(values, UnlimitedOf);
    SumNonNegative(values, LimitedOf);
    SumNonNegative(values, BitsOf);
    SumNonNegative(values, BurstOf);
  }

  lemma SumsOfConcat(a: seq<Rate>, b: seq<Rate>)
    ensures Sum(a + b, UnlimitedOf) == Sum(a, UnlimitedOf) + Sum(b, UnlimitedOf)
    ensures Sum(a + b, LimitedOf) == Sum(a, LimitedOf) + Sum(b, LimitedOf)
    ensures Sum(a + b, BitsOf) == Sum(a, BitsOf) + Sum(b, BitsOf)
    ensures Sum(a + b, BurstOf) == Sum(a, BurstOf) + Sum(b, BurstOf)
  {
    SumConcat(a, b, UnlimitedOf);
    SumConcat(a, b, LimitedOf);
    SumConcat(a, b, BitsOf);
    SumConcat(a, b, BurstOf);
  }

  lemma SumsOfUpdate(values: seq<Rate>, i: nat, r: Rate)
    requires i < |values|
    ensures Sum(values[i := r], UnlimitedOf) == Sum(values, UnlimitedOf) - UnlimitedOf(values[i]) + UnlimitedOf(r)
    ensures Sum(values[i := r], LimitedOf) == Sum(values, LimitedOf) - LimitedOf(values[i]) + LimitedOf(r)
    ensures Sum(values[i := r], BitsOf) == Sum(values, BitsOf) - BitsOf(values[i]) + BitsOf(r)
    ensures Sum(values[i := r], BurstOf) == Sum(values, BurstOf) - BurstOf(values[i]) + BurstOf(r)
  {
    SumUpdate(values, i, r, UnlimitedOf);
    SumUpdate(values, i, r, LimitedOf);
    SumUpdate(values, i, r, BitsOf);
    SumUpdate(values, i, r, BurstOf);
  }

  /** The running-sum loop, with its early exits and its overflow guards,
      decides exactly whether the true sums fit. */
  method FitsRates(bound: Rate, values: seq<Rate>) returns (ok: bool)
    ensures ok == Fits(bound, values)
  {
    if bound.mode.Unlimited? {
      return true;
    }
    var bits: Word, burst: Word := 0, 0;
    for i := 0 to |values|
      invariant Sum(values[..i], UnlimitedOf) == 0
      invariant bound.mode.Limited? || Sum(values[..i], LimitedOf) == 0
      invariant bits == Sum(values[..i], BitsOf)
      invariant burst == Sum(values[..i], BurstOf)
    {
      var value := values[i];
      assert values == values[..i + 1] + values[i + 1..] && values[..i + 1] == values[..i] + [value];
      SumsOfConcat(values[..i], [value]);
      SumsOfConcat(values[..i + 1], values[i + 1..]);
      SumsAreNonNegative(values[..i]);
      SumsAreNonNegative(values[i + 1..]);
      if value.mode.Blocked? {
        continue;
      }
      if value.mode.Unlimited? || bound.mode.Blocked? || value.bits > MAX_UINT64 - bits
        || value.burst > MAX_UINT64 - burst {
        return false;
      }
      bits, burst := bits + value.bits, burst + value.burst;
    }
    assert values[..|values|] == values;
    return bits <= bound.bits && burst <= bound.burst;
  }

  /** Lowering rates never breaks the fit. */
  lemma FitsIsMonotone(bound: Rate, high: seq<Rate>, low: seq<Rate>)
    requires |high| == |low|
    requires forall i :: 0 <= i < |high| ==> Covers(high[i], low[i])
    requires Fits(bound, high)
    ensures Fits(bound, low)
  {
    if !bound.mode.Unlimited? {
      SumZero(high, UnlimitedOf);
      assert forall i :: 0 <= i < |high| ==> UnlimitedOf(high[i]) == 0;
      SumMonotone(low, high, UnlimitedOf, UnlimitedOf);
      SumMonotone(low, high, LimitedOf, LimitedOf);
      SumMonotone(low, high, BitsOf, BitsOf);
      SumMonotone(low, high, BurstOf, BurstOf);
      SumsAreNonNegative(low);
    }
  }

  /** Raising one rate never restores a lost fit. */
  lemma RaisingKeepsUnfit(bound: Rate, values: seq<Rate>, i: nat, r: Rate)
    requires i < |values| && Covers(r, values[i])
    requires Fits(bound, values[i := r])
    ensures Fits(bound, values)
  {
    forall k | 0 <= k < |values| ensures Covers(values[i := r][k], values[k]) {
    }
    FitsIsMonotone(bound, values[i := r], values);
  }

  /** The fit does not depend on where in the list a rate stands: checking the
      others followed by the new rate is checking the updated list. */
  lemma FitsOthersThen(bound: Rate, values: seq<Rate>, i: nat, r: Rate)
    requires i < |values|
    ensures Fits(bound, values[..i] + values[i + 1..] + [r]) <==> Fits(bound, values[i := r])
  {
    var updated := values[i := r];
    assert updated == values[..i] + ([r] + values[i + 1..]);
    SumsOfConcat(values[..i], [r] + values[i + 1..]);
    SumsOfConcat([r], values[i + 1..]);
    SumsOfConcat(values[..i] + values[i + 1..], [r]);
    SumsOfConcat(values[..i], values[i + 1..]);
  }
}
