/** The fair division of one bandwidth budget among its participants
    (internal/controlplane/rate_allocation.go). */
module RateAllocation {
  import opened Sums
  import opened Rates

  const MAX_PARTICIPANTS: nat := 32768

  /** What a participant asks for: nothing here depends on its outstanding rate. */
  datatype Claim = Claim(eligible: bool, frozen: bool, minimumBurst: int) {
    predicate Wants()
    {
      eligible && !frozen
    }
  }

  /** Ids are canonical UUIDs, which order as the numbers they spell; 0 is the nil UUID. */
  datatype Participant = Participant(id: nat, outstanding: Pair, claim: Claim)

  datatype Allocation = Allocation(id: nat, target: Pair, next: Pair)

  datatype Direction = Upload | Download

  datatype CapacityError = CapacityError(direction: Direction, availableBits: Word, availableBurst: Word,
    participants: int, requiredBurst: int)

  datatype Outcome = Invalid | Allocated(allocations: seq<Allocation>, constraints: seq<CapacityError>)

  predicate ValidClaim(c: Claim)
  {
    1 <= c.minimumBurst <= MAX_BURST
  }

  predicate ValidClaims(claims: seq<Claim>)
  {
    |claims| <= MAX_PARTICIPANTS && forall i :: 0 <= i < |claims| ==> ValidClaim(claims[i])
  }

  predicate ValidRates(rates: seq<Rate>)
  {
    forall i :: 0 <= i < |rates| ==> Valid(rates[i])
  }

  // ----- running totals -----

  /** The allocator's running totals: a 128-bit sum of bits in two words. */
  class RateTotals {
    var bits: Word
    var high: Word
    var burst: Word
    var unlimited: int

    /** The totals are the true sums of `values`. */
    ghost predicate Totals(values: seq<Rate>)
      reads this
    {
      && high * TWO64 + bits == Sum(values, BitsOf)
      && burst == Sum(values, BurstOf)
      && unlimited == Sum(values, UnlimitedOf)
    }

    constructor ()
      ensures bits == 0 && high == 0 && burst == 0 && unlimited == 0
    {
      bits, high, burst, unlimited := 0, 0, 0, 0;
    }

    constructor Copy(other: RateTotals)
      ensures bits == other.bits && high == other.high && burst == other.burst && unlimited == other.unlimited
    {
      bits, high, burst, unlimited := other.bits, other.high, other.burst, other.unlimited;
    }

    /** Adds with carry. Only a sum of more than 2^128 bits or 2^64 burst bytes would wrap. */
    method Add(value: Rate)
      requires high < MAX_UINT64 && burst + BurstOf(value) < TWO64
      modifies this
      ensures high * TWO64 + bits == old(high * TWO64 + bits) + BitsOf(value)
      ensures burst == old(burst) + BurstOf(value)
      ensures unlimited == old(unlimited) + UnlimitedOf(value)
    {
      match value.mode
      case Unlimited =>
        unlimited := unlimited + 1;
      case Limited =>
        var sum := bits + value.bits;
        var carry := if sum < TWO64 then 0 else 1;
        bits := sum - carry * TWO64;
        high := high + carry;
        burst := (burst + value.burst) % TWO64;
      case Blocked =>
    }

    method Remove(value: Rate)
      requires BitsOf(value) <= high * TWO64 + bits && BurstOf(value) <= burst
      modifies this
      ensures high * TWO64 + bits == old(high * TWO64 + bits) - BitsOf(value)
      ensures burst == old(burst) - BurstOf(value)
      ensures unlimited == old(unlimited) - UnlimitedOf(value)
    {
      match value.mode
      case Unlimited =>
        unlimited := unlimited - 1;
      case Limited =>
        var borrow := if value.bits <= bits then 0 else 1;
        bits := bits + borrow * TWO64 - value.bits;
        high := high - borrow;
        burst := (burst + TWO64 - value.burst) % TWO64;
      case Blocked =>
    }

    function FitsIn(bound: Rate): bool
      reads this
    {
      bound.mode.Unlimited? || (unlimited == 0 && high == 0 && bits <= bound.bits && burst <= bound.burst)
    }

    /** The carry form of the test agrees with recomputing the fit from scratch. */
    lemma TotalsDecideFit(bound: Rate, values: seq<Rate>)
      requires Totals(values) && Valid(bound) && ValidRates(values)
      ensures FitsIn(bound) <==> Fits(bound, values)
    {
      SumsAreNonNegative(values);
      if bound.mode.Blocked? {
        SumMonotone(values, values, LimitedOf, BitsOf);
      }
    }
  }

  lemma SumsAreBounded(values: seq<Rate>)
    requires ValidRates(values) && |values| <= MAX_PARTICIPANTS
    ensures 0 <= Sum(values, BitsOf) <= MAX_PARTICIPANTS * MAX_BITS
    ensures 0 <= Sum(values, BurstOf) <= MAX_PARTICIPANTS * MAX_BURST
  {
    SumsAreNonNegative(values);
    SumAtMost(values, BitsOf, MAX_BITS);
    SumAtMost(values, BurstOf, MAX_BURST);
    assert |values| * MAX_BITS <= MAX_PARTICIPANTS * MAX_BITS;
    assert |values| * MAX_BURST <= MAX_PARTICIPANTS * MAX_BURST;
  }

  // ----- fair targets -----

  function EligibleOf(c: Claim): int
  {
    if c.Wants() then 1 else 0
  }

  function MinimumOf(c: Claim): int
  {
    if c.Wants() then c.minimumBurst else 0
  }

  /** The rates the budget cannot take back: those of frozen participants. */
  function FrozenRates(claims: seq<Claim>, current: seq<Rate>): seq<Rate>
    requires |claims| == |current|
  {
    seq(|claims|, i requires 0 <= i < |claims| => if claims[i].frozen then current[i] else BLOCKED)
  }

  ghost predicate Starved(bound: Rate, claims: seq<Claim>, current: seq<Rate>)
    requires |claims| == |current|
  {
    bound.mode.Blocked? || !Fits(bound, FrozenRates(claims, current))
  }

  ghost function RemainingBits(bound: Rate, claims: seq<Claim>, current: seq<Rate>): int
    requires |claims| == |current|
  {
    bound.bits - Sum(FrozenRates(claims, current), BitsOf)
  }

  ghost function RemainingBurst(bound: Rate, claims: seq<Claim>, current: seq<Rate>): int
    requires |claims| == |current|
  {
    bound.burst - Sum(FrozenRates(claims, current), BurstOf)
  }

  /** A limited bound that can give every eligible participant one bit and its minimum burst. */
  ghost predicate Feasible(bound: Rate, claims: seq<Claim>, current: seq<Rate>)
    requires |claims| == |current|
  {
    && bound.mode.Limited?
    && !Starved(bound, claims, current)
    && Sum(claims, EligibleOf) <= RemainingBits(bound, claims, current)
    && Sum(claims, MinimumOf) <= RemainingBurst(bound, claims, current)
  }

  /** The part of `total` dealt to place `rank` of `count`. */
  function Share(total: nat, count: nat, rank: nat): nat
    requires 0 < count
  {
    total / count + if rank < total % count then 1 else 0
  }

  /** What the places before `k` were dealt together. */
  function Dealt(total: nat, count: nat, k: nat): nat
    requires 0 < count
  {
    k * (total / count) + if k < total % count then k else total % count
  }

  /** A later place is never dealt more than an earlier one, and at most one less. */
  lemma DealingIsFair(total: nat, count: nat, rank: nat, later: nat)
    requires rank <= later < count
    ensures 0 <= Share(total, count, rank) - Share(total, count, later) <= 1
  {
  }

  /** The places are dealt the total exactly. */
  lemma DealingIsExact(total: nat, count: nat, rank: nat)
    requires rank < count
    ensures Dealt(total, count, rank + 1) == Dealt(total, count, rank) + Share(total, count, rank)
    ensures Dealt(total, count, 0) == 0
    ensures Dealt(total, count, count) == total
    ensures Share(total, count, rank) <= total
    ensures count <= total ==> 1 <= Share(total, count, rank)
  {
    var q, m := total / count, total % count;
    assert total == count * q + m;
    assert (rank + 1) * q == rank * q + q;
    assert q <= count * q;
    if count <= total && q == 0 {
      assert false;
    }
  }

  /** Deserved rank and minimum of participant `i` stay inside the totals. */
  lemma ClaimWithinTotals(claims: seq<Claim>, i: nat)
    requires i < |claims| && ValidClaims(claims) && claims[i].Wants()
    ensures 0 <= Sum(claims[..i], EligibleOf) < Sum(claims, EligibleOf)
    ensures claims[i].minimumBurst <= Sum(claims, MinimumOf)
  {
    SumNonNegative(claims[..i], EligibleOf);
    SumNonNegative(claims[i + 1..], EligibleOf);
    SumSplit(claims, i, EligibleOf);
    SumAtLeast(claims, i, MinimumOf);
  }

  lemma FrozenSumsAreNonNegative(claims: seq<Claim>, current: seq<Rate>)
    requires |claims| == |current|
    ensures 0 <= Sum(FrozenRates(claims, current), BitsOf) && 0 <= Sum(FrozenRates(claims, current), BurstOf)
  {
    SumsAreNonNegative(FrozenRates(claims, current));
  }

  /** The fair target of participant `i`. */
  ghost function Target(bound: Rate, claims: seq<Claim>, current: seq<Rate>, i: nat): Rate
    requires |claims| == |current| && ValidClaims(claims) && i < |claims|
  {
    if claims[i].frozen then current[i]
    else if !claims[i].eligible || Starved(bound, claims, current) then BLOCKED
    else if bound.mode.Unlimited? then UNLIMITED
    else if !Feasible(bound, claims, current) then
      if Fits(bound, current) then current[i] else BLOCKED
    else
      ClaimWithinTotals(claims, i);
      FrozenSumsAreNonNegative(claims, current);
      var count, rank := Sum(claims, EligibleOf), Sum(claims[..i], EligibleOf);
      var bits := RemainingBits(bound, claims, current);
      var extra := RemainingBurst(bound, claims, current) - Sum(claims, MinimumOf);
      DealingIsExact(bits, count, rank);
      DealingIsExact(extra, count, rank);
      Rate(Limited, Share(bits, count, rank), claims[i].minimumBurst + Share(extra, count, rank))
  }

  ghost function Targets(bound: Rate, claims: seq<Claim>, current: seq<Rate>): (targets: seq<Rate>)
    requires |claims| == |current| && ValidClaims(claims)
    ensures |targets| == |claims|
  {
    seq(|claims|, i requires 0 <= i < |claims| => Target(bound, claims, current, i))
  }

  /** Every target is a rate the budget's own validator accepts. */
  lemma TargetIsValid(bound: Rate, claims: seq<Claim>, current: seq<Rate>, i: nat)
    requires |claims| == |current| && ValidClaims(claims) && i < |claims|
    requires Valid(bound) && ValidRates(current)
    ensures Valid(Target(bound, claims, current, i))
  {
    if claims[i].Wants() && Feasible(bound, claims, current) {
      ClaimWithinTotals(claims, i);
      FrozenSumsAreNonNegative(claims, current);
      var count, rank := Sum(claims, EligibleOf), Sum(claims[..i], EligibleOf);
      DealingIsExact(RemainingBits(bound, claims, current), count, rank);
      DealingIsExact(RemainingBurst(bound, claims, current) - Sum(claims, MinimumOf), count, rank);
    }
  }

  /** `eligible` lists, in order, the positions before `n` that want a share. */
  ghost predicate Ranked(claims: seq<Claim>, eligible: seq<nat>, n: nat)
    requires n <= |claims|
  {
    && |eligible| == Sum(claims[..n], EligibleOf)
    && forall r :: 0 <= r < |eligible| ==>
      eligible[r] < n && claims[eligible[r]].Wants() && Sum(claims[..eligible[r]], EligibleOf) == r
  }

  ghost function Reached(claims: seq<Claim>, eligible: seq<nat>, rank: nat): nat
    requires rank <= |eligible| && Ranked(claims, eligible, |claims|)
  {
    if rank < |eligible| then eligible[rank] else |claims|
  }

  lemma {:induction false} PrefixCount(claims: seq<Claim>, a: nat, b: nat)
    requires a <= b <= |claims|
    ensures Sum(claims[..a], EligibleOf) <= Sum(claims[..b], EligibleOf)
  {
    assert claims[..b] == claims[..a] + claims[a..b];
    SumConcat(claims[..a], claims[a..b], EligibleOf);
    SumNonNegative(claims[a..b], EligibleOf);
  }

  /** No two positions that want a share have the same rank. */
  lemma RankIdentifies(claims: seq<Claim>, i: nat)
    requires i < |claims| && claims[i].Wants()
    ensures forall k :: 0 <= k < |claims| && claims[k].Wants() && k != i ==>
      Sum(claims[..k], EligibleOf) != Sum(claims[..i], EligibleOf)
  {
    forall k | 0 <= k < |claims| && claims[k].Wants() && k != i
      ensures Sum(claims[..k], EligibleOf) != Sum(claims[..i], EligibleOf)
    {
      var a, b := if k < i then k else i, if k < i then i else k;
      SumAppend(claims[..a], claims[a], EligibleOf);
      assert claims[..a + 1] == claims[..a] + [claims[a]];
      PrefixCount(claims, a + 1, b);
    }
  }

  lemma {:induction false} GapHasNoMinimum(claims: seq<Claim>, a: nat, b: nat)
    requires a <= b <= |claims|
    requires Sum(claims[..a], EligibleOf) == Sum(claims[..b], EligibleOf)
    ensures Sum(claims[..a], MinimumOf) == Sum(claims[..b], MinimumOf)
  {
    if a < b {
      assert claims[..b] == claims[..b - 1] + [claims[b - 1]];
      SumAppend(claims[..b - 1], claims[b - 1], EligibleOf);
      SumAppend(claims[..b - 1], claims[b - 1], MinimumOf);
      PrefixCount(claims, a, b - 1);
      GapHasNoMinimum(claims, a, b - 1);
    }
  }

  method RetainFeasibleRates(bound: Rate, claims: seq<Claim>, current: seq<Rate>, start: seq<Rate>)
      returns (result: seq<Rate>)
    requires |claims| == |current| == |start|
    ensures |result| == |claims|
    ensures forall i :: 0 <= i < |claims| ==>
      result[i] == if claims[i].Wants() && Fits(bound, current) then current[i] else start[i]
  {
    result := start;
    var fits := FitsRates(bound, current);
    if fits {
      for i := 0 to |claims|
        invariant |result| == |claims|
        invariant forall k :: 0 <= k < |claims| ==>
          result[k] == if k < i && claims[k].Wants() then current[k] else start[k]
      {
        if claims[i].eligible && !claims[i].frozen {
          result := result[i := current[i]];
        }
      }
    }
  }

  lemma RankStep(claims: seq<Claim>, eligible: seq<nat>, i: nat)
    requires i < |claims| && Ranked(claims, eligible, i)
    ensures Ranked(claims, if claims[i].Wants() then eligible + [i] else eligible, i + 1)
  {
    SumAppend(claims[..i], claims[i], EligibleOf);
    assert claims[..i + 1] == claims[..i] + [claims[i]];
  }

  /** What is left of the budget once the first frozen rates were taken off it. */
  ghost predicate Left(bound: Rate, frozen: seq<Rate>, bits: Word, burst: Word, insufficient: bool)
  {
    && insufficient == (bound.mode.Blocked? || !Fits(bound, frozen))
    && (bound.mode.Limited? && !insufficient ==>
      bits == bound.bits - Sum(frozen, BitsOf) && burst == bound.burst - Sum(frozen, BurstOf))
  }

  lemma NothingTaken(bound: Rate, frozen: seq<Rate>, bits: Word, burst: Word, insufficient: bool)
    requires Left(bound, frozen, bits, burst, insufficient)
    ensures Left(bound, frozen + [BLOCKED], bits, burst, insufficient)
  {
    SumsOfConcat(frozen, [BLOCKED]);
  }

  /** The first pass: frozen rates are kept and taken off the budget, the rest are ranked. */
  method TakeFrozen(bound: Rate, claims: seq<Claim>, current: seq<Rate>)
    returns (result: seq<Rate>, eligible: seq<nat>, bits: Word, burst: Word, insufficient: bool)
    requires |claims| == |current| && ValidRates(current)
    ensures |result| == |claims|
    ensures forall k :: 0 <= k < |claims| ==> result[k] == if claims[k].frozen then current[k] else BLOCKED
    ensures Ranked(claims, eligible, |claims|)
    ensures insufficient == Starved(bound, claims, current)
    ensures bound.mode.Limited? && !insufficient ==>
      bits == RemainingBits(bound, claims, current) && burst == RemainingBurst(bound, claims, current)
  {
    result, eligible := seq(|claims|, _ => BLOCKED), [];
    bits, burst, insufficient := bound.bits, bound.burst, bound.mode.Blocked?;
    ghost var taken := [];
    for i := 0 to |claims|
      invariant |result| == |claims| && |taken| == i
      invariant forall k :: 0 <= k < i ==> result[k] == if claims[k].frozen then current[k] else BLOCKED
      invariant forall k :: i <= k < |claims| ==> result[k] == BLOCKED
      invariant forall k :: 0 <= k < i ==> taken[k] == if claims[k].frozen then current[k] else BLOCKED
      invariant Ranked(claims, eligible, i)
      invariant Left(bound, taken, bits, burst, insufficient)
    {
      RankStep(claims, eligible, i);
      if claims[i].frozen {
        result := result[i := current[i]];
        bits, burst, insufficient := TakeOff(bound, current[i], taken, bits, burst, insufficient);
        taken := taken + [current[i]];
      } else {
        NothingTaken(bound, taken, bits, burst, insufficient);
        taken := taken + [BLOCKED];
        if claims[i].eligible {
          eligible := eligible + [i];
        }
      }
    }
    assert taken == FrozenRates(claims, current);
  }

  method TakeOff(bound: Rate, rate: Rate, ghost frozen: seq<Rate>, bits: Word, burst: Word, insufficient: bool)
    returns (bits': Word, burst': Word, insufficient': bool)
    requires Left(bound, frozen, bits, burst, insufficient)
    ensures Left(bound, frozen + [rate], bits', burst', insufficient')
  {
    bits', burst', insufficient' := bits, burst, insufficient;
    SumsOfConcat(frozen, [rate]);
    SumsAreNonNegative(frozen);
    if !bound.mode.Unlimited? && !rate.mode.Blocked? {
      if rate.mode.Unlimited? || rate.bits > bits || rate.burst > burst {
        insufficient' := true;
      } else {
        bits', burst' := bits - rate.bits, burst - rate.burst;
      }
    }
  }

  method TotalMinimum(claims: seq<Claim>, eligible: seq<nat>) returns (minimum: int)
    requires Ranked(claims, eligible, |claims|)
    ensures minimum == Sum(claims, MinimumOf)
  {
    minimum := 0;
    assert claims[..|claims|] == claims;
    GapHasNoMinimum(claims, 0, Reached(claims, eligible, 0));
    for rank := 0 to |eligible|
      invariant minimum == Sum(claims[..Reached(claims, eligible, rank)], MinimumOf)
    {
      var i := eligible[rank];
      SumAppend(claims[..i], claims[i], EligibleOf);
      SumAppend(claims[..i], claims[i], MinimumOf);
      assert claims[..i + 1] == claims[..i] + [claims[i]];
      RanksAscend(claims, eligible, rank);
      GapHasNoMinimum(claims, i + 1, Reached(claims, eligible, rank + 1));
      minimum := minimum + claims[i].minimumBurst;
    }
  }

  lemma RanksAscend(claims: seq<Claim>, eligible: seq<nat>, rank: nat)
    requires Ranked(claims, eligible, |claims|) && rank < |eligible|
    ensures eligible[rank] < Reached(claims, eligible, rank + 1)
  {
    if rank + 1 < |eligible| && eligible[rank + 1] <= eligible[rank] {
      PrefixCount(claims, eligible[rank + 1], eligible[rank]);
      assert false;
    }
  }

  /** The result once the first `rank` eligible participants were served. */
  ghost predicate Served(bound: Rate, claims: seq<Claim>, current: seq<Rate>, result: seq<Rate>, rank: nat)
    requires |claims| == |current| && ValidClaims(claims)
  {
    && |result| == |claims|
    && forall k :: 0 <= k < |claims| ==>
      result[k] == if claims[k].frozen
        || (claims[k].eligible && Sum(claims[..k], EligibleOf) < rank) then Target(bound, claims, current, k)
        else BLOCKED
  }

  lemma ServedByAll(bound: Rate, claims: seq<Claim>, current: seq<Rate>, result: seq<Rate>, rank: nat)
    requires |claims| == |current| && ValidClaims(claims)
    requires Served(bound, claims, current, result, rank) && rank == Sum(claims, EligibleOf)
    ensures result == Targets(bound, claims, current)
  {
    forall k | 0 <= k < |claims| && claims[k].Wants() ensures Sum(claims[..k], EligibleOf) < rank {
      ClaimWithinTotals(claims, k);
    }
  }

  lemma ServeOne(bound: Rate, claims: seq<Claim>, current: seq<Rate>, result: seq<Rate>, i: nat)
    requires |claims| == |current| && ValidClaims(claims) && i < |claims| && claims[i].Wants()
    requires var rank := Sum(claims[..i], EligibleOf); rank >= 0 && Served(bound, claims, current, result, rank)
    ensures Served(bound, claims, current, result[i := Target(bound, claims, current, i)],
      Sum(claims[..i], EligibleOf) + 1)
  {
    RankIdentifies(claims, i);
  }

  method GrantUnlimited(bound: Rate, claims: seq<Claim>, current: seq<Rate>, eligible: seq<nat>, start: seq<Rate>)
      returns (result: seq<Rate>)
    requires |claims| == |current| && ValidClaims(claims) && Ranked(claims, eligible, |claims|)
    requires bound.mode.Unlimited? && Served(bound, claims, current, start, 0)
    ensures result == Targets(bound, claims, current)
    ensures forall i :: 0 <= i < |claims| ==>
      result[i] == if claims[i].frozen then current[i]
        else if claims[i].eligible then Rate(Unlimited, 0, 0) else Rate(Blocked, 0, 0)
  {
    result := start;
    for rank := 0 to |eligible|
      invariant Served(bound, claims, current, result, rank)
    {
      ServeOne(bound, claims, current, result, eligible[rank]);
      result := result[eligible[rank] := Rate(Unlimited, 0, 0)];
    }
    assert claims[..|claims|] == claims;
    ServedByAll(bound, claims, current, result, |eligible|);
  }

  /** Exact division with the remainder going to the lowest ranks. */
  method Divide(bound: Rate, claims: seq<Claim>, current: seq<Rate>, eligible: seq<nat>, bits: Word, extra: Word,
      start: seq<Rate>) returns (result: seq<Rate>)
    requires |claims| == |current| && ValidClaims(claims) && Ranked(claims, eligible, |claims|)
    requires Feasible(bound, claims, current) && bits == RemainingBits(bound, claims, current)
    requires extra == RemainingBurst(bound, claims, current) - Sum(claims, MinimumOf)
    requires Served(bound, claims, current, start, 0)
    ensures result == Targets(bound, claims, current)
  {
    result := start;
    var count := |eligible|;
    assert claims[..|claims|] == claims;
    FrozenSumsAreNonNegative(claims, current);
    for rank := 0 to count
      invariant Served(bound, claims, current, result, rank)
    {
      var i := eligible[rank];
      ServeOne(bound, claims, current, result, i);
      ClaimWithinTotals(claims, i);
      DealingIsExact(bits, count, rank);
      DealingIsExact(extra, count, rank);
      var assignedBits, assignedBurst := bits / count, claims[i].minimumBurst + extra / count;
      if rank < bits % count {
        assignedBits := assignedBits + 1;
      }
      if rank < extra % count {
        assignedBurst := assignedBurst + 1;
      }
      assert Target(bound, claims, current, i) == Rate(Limited, assignedBits, assignedBurst);
      result := result[i := Rate(Limited, assignedBits, assignedBurst)];
    }
    ServedByAll(bound, claims, current, result, count);
  }

  /** The source's division computes exactly the fair targets. */
  method FairRateTargets(bound: Rate, claims: seq<Claim>, current: seq<Rate>) returns (result: seq<Rate>)
    requires |claims| == |current| && ValidClaims(claims)
    requires Valid(bound) && ValidRates(current)
    ensures result == Targets(bound, claims, current)
  {
    var eligible, bits, burst, insufficient;
    result, eligible, bits, burst, insufficient := TakeFrozen(bound, claims, current);
    assert claims[..|claims|] == claims;
    SumNonNegative(claims, EligibleOf);
    forall k | 0 <= k < |claims| && claims[k].Wants() ensures 0 <= Sum(claims[..k], EligibleOf) && 0 < |eligible| {
      ClaimWithinTotals(claims, k);
    }
    if |eligible| == 0 || insufficient {
      return;
    }
    if bound.mode.Unlimited? {
      result := GrantUnlimited(bound, claims, current, eligible, result);
      return;
    }
    if bits < |eligible| {
      result := RetainFeasibleRates(bound, claims, current, result);
      return;
    }
    var minimum := TotalMinimum(claims, eligible);
    if minimum > burst {
      result := RetainFeasibleRates(bound, claims, current, result);
      return;
    }
    SumNonNegative(claims, MinimumOf);
    result := Divide(bound, claims, current, eligible, bits, burst - minimum, result);
  }

  // ----- what the targets guarantee -----

  lemma PrefixWithinTotals(bound: Rate, claims: seq<Claim>, current: seq<Rate>, n: nat)
    requires |claims| == |current| && ValidClaims(claims) && n <= |claims|
    requires Feasible(bound, claims, current) && 0 < Sum(claims, EligibleOf)
    ensures 0 <= Sum(claims[..n], EligibleOf) <= Sum(claims, EligibleOf)
    ensures 0 <= RemainingBits(bound, claims, current)
      && Sum(claims, MinimumOf) <= RemainingBurst(bound, claims, current)
  {
    assert claims[..|claims|] == claims;
    PrefixCount(claims, n, |claims|);
    PrefixCount(claims, 0, n);
  }

  lemma {:induction false} TargetPrefixBits(bound: Rate, claims: seq<Claim>, current: seq<Rate>, n: nat)
    requires |claims| == |current| && ValidClaims(claims) && n <= |claims|
    requires Feasible(bound, claims, current) && 0 < Sum(claims, EligibleOf)
    ensures 0 <= Sum(claims[..n], EligibleOf) <= Sum(claims, EligibleOf)
    ensures 0 <= RemainingBits(bound, claims, current)
      && Sum(claims, MinimumOf) <= RemainingBurst(bound, claims, current)
    ensures Sum(Targets(bound, claims, current)[..n], BitsOf) == Sum(FrozenRates(claims, current)[..n], BitsOf)
      + Dealt(RemainingBits(bound, claims, current), Sum(claims, EligibleOf), Sum(claims[..n], EligibleOf))
  {
    PrefixWithinTotals(bound, claims, current, n);
    if n > 0 {
      var i := n - 1;
      var targets, frozen := Targets(bound, claims, current), FrozenRates(claims, current);
      TargetPrefixBits(bound, claims, current, i);
      PrefixWithinTotals(bound, claims, current, i);
      assert targets[..n] == targets[..i] + [targets[i]] && frozen[..n] == frozen[..i] + [frozen[i]]
        && claims[..n] == claims[..i] + [claims[i]];
      SumAppend(claims[..i], claims[i], EligibleOf);
      SumAppend(targets[..i], targets[i], BitsOf);
      SumAppend(frozen[..i], frozen[i], BitsOf);
      if claims[i].Wants() {
        ClaimWithinTotals(claims, i);
        DealingIsExact(RemainingBits(bound, claims, current), Sum(claims, EligibleOf), Sum(claims[..i], EligibleOf));
      }
    }
  }

  lemma {:induction false} TargetPrefixBurst(bound: Rate, claims: seq<Claim>, current: seq<Rate>, n: nat)
    requires |claims| == |current| && ValidClaims(claims) && n <= |claims|
    requires Feasible(bound, claims, current) && 0 < Sum(claims, EligibleOf)
    ensures 0 <= Sum(claims[..n], EligibleOf) <= Sum(claims, EligibleOf)
    ensures 0 <= RemainingBits(bound, claims, current)
      && Sum(claims, MinimumOf) <= RemainingBurst(bound, claims, current)
    ensures Sum(Targets(bound, claims, current)[..n], BurstOf) ==
      Sum(FrozenRates(claims, current)[..n], BurstOf) + Sum(claims[..n], MinimumOf)
      + Dealt(RemainingBurst(bound, claims, current) - Sum(claims, MinimumOf), Sum(claims, EligibleOf),
        Sum(claims[..n], EligibleOf))
  {
    PrefixWithinTotals(bound, claims, current, n);
    if n > 0 {
      var i := n - 1;
      var targets, frozen := Targets(bound, claims, current), FrozenRates(claims, current);
      TargetPrefixBurst(bound, claims, current, i);
      PrefixWithinTotals(bound, claims, current, i);
      assert targets[..n] == targets[..i] + [targets[i]] && frozen[..n] == frozen[..i] + [frozen[i]]
        && claims[..n] == claims[..i] + [claims[i]];
      SumAppend(claims[..i], claims[i], EligibleOf);
      SumAppend(claims[..i], claims[i], MinimumOf);
      SumAppend(targets[..i], targets[i], BurstOf);
      SumAppend(frozen[..i], frozen[i], BurstOf);
      if claims[i].Wants() {
        ClaimWithinTotals(claims, i);
        DealingIsExact(RemainingBurst(bound, claims, current) - Sum(claims, MinimumOf), Sum(claims, EligibleOf),
          Sum(claims[..i], EligibleOf));
      }
    }
  }

  lemma {:induction false} TargetPrefixUnlimited(bound: Rate, claims: seq<Claim>, current: seq<Rate>, n: nat)
    requires |claims| == |current| && ValidClaims(claims) && n <= |claims|
    requires Feasible(bound, claims, current) && 0 < Sum(claims, EligibleOf)
    ensures Sum(Targets(bound, claims, current)[..n], UnlimitedOf) == 0
  {
    if n > 0 {
      var i := n - 1;
      var targets, frozen := Targets(bound, claims, current), FrozenRates(claims, current);
      TargetPrefixUnlimited(bound, claims, current, i);
      assert targets[..n] == targets[..i] + [targets[i]];
      SumAppend(targets[..i], targets[i], UnlimitedOf);
      if claims[i].frozen {
        SumZero(frozen, UnlimitedOf);
        assert UnlimitedOf(frozen[i]) == 0;
      } else if claims[i].eligible {
        ClaimWithinTotals(claims, i);
      }
    }
  }

  /** In a feasible limited direction with somebody to serve, the frozen rates and
      the fair targets use up the bound exactly, in bits and in burst. */
  lemma TargetsExhaustTheBound(bound: Rate, claims: seq<Claim>, current: seq<Rate>)
    requires |claims| == |current| && ValidClaims(claims)
    requires Feasible(bound, claims, current) && exists i :: 0 <= i < |claims| && claims[i].Wants()
    ensures Sum(Targets(bound, claims, current), BitsOf) == bound.bits
    ensures Sum(Targets(bound, claims, current), BurstOf) == bound.burst
    ensures Sum(Targets(bound, claims, current), UnlimitedOf) == 0
  {
    var i :| 0 <= i < |claims| && claims[i].Wants();
    ClaimWithinTotals(claims, i);
    PrefixWithinTotals(bound, claims, current, |claims|);
    TargetPrefixBits(bound, claims, current, |claims|);
    TargetPrefixBurst(bound, claims, current, |claims|);
    TargetPrefixUnlimited(bound, claims, current, |claims|);
    var targets, frozen := Targets(bound, claims, current), FrozenRates(claims, current);
    assert targets[..|claims|] == targets && frozen[..|claims|] == frozen && claims[..|claims|] == claims;
    DealingIsExact(RemainingBits(bound, claims, current), Sum(claims, EligibleOf), 0);
    DealingIsExact(RemainingBurst(bound, claims, current) - Sum(claims, MinimumOf), Sum(claims, EligibleOf), 0);
  }

  /** Two eligible participants differ by at most one bit and by at most one
      byte of burst above their own minimum; an earlier one never gets less. */
  lemma TargetsAreFair(bound: Rate, claims: seq<Claim>, current: seq<Rate>, i: nat, j: nat)
    requires |claims| == |current| && ValidClaims(claims) && i < j < |claims|
    requires Feasible(bound, claims, current) && claims[i].Wants() && claims[j].Wants()
    ensures var a, b := Target(bound, claims, current, i), Target(bound, claims, current, j);
      && 0 <= a.bits - b.bits <= 1
      && 0 <= (a.burst - claims[i].minimumBurst) - (b.burst - claims[j].minimumBurst) <= 1
      && claims[j].minimumBurst <= b.burst && claims[i].minimumBurst <= a.burst
      && 1 <= b.bits
  {
    ClaimWithinTotals(claims, i);
    ClaimWithinTotals(claims, j);
    PrefixCount(claims, i, j);
    FrozenSumsAreNonNegative(claims, current);
    DealingIsExact(RemainingBits(bound, claims, current), Sum(claims, EligibleOf), Sum(claims[..j], EligibleOf));
    DealingIsFair(RemainingBits(bound, claims, current), Sum(claims, EligibleOf), Sum(claims[..i], EligibleOf),
      Sum(claims[..j], EligibleOf));
  }

  /** Unless the frozen rates alone break the bound, the targets fit it. */
  lemma TargetsFit(bound: Rate, claims: seq<Claim>, current: seq<Rate>)
    requires |claims| == |current| && ValidClaims(claims)
    requires Valid(bound) && ValidRates(current)
    ensures !Starved(bound, claims, current) ==> Fits(bound, Targets(bound, claims, current))
  {
    var targets, frozen := Targets(bound, claims, current), FrozenRates(claims, current);
    if !Starved(bound, claims, current) && bound.mode.Limited? {
      if exists i :: 0 <= i < |claims| && claims[i].Wants() {
        if Feasible(bound, claims, current) {
          TargetsExhaustTheBound(bound, claims, current);
        } else if Fits(bound, current) {
          FitsIsMonotone(bound, current, targets);
        } else {
          assert targets == frozen;
        }
      } else {
        assert targets == frozen;
      }
    }
  }

  // ----- raising towards the targets -----

  /** The step decided for participant `i` when the others stand at `current`. */
  ghost function Next(bound: Rate, claim: Claim, current: seq<Rate>, target: Rate, i: nat): Rate
    requires i < |current|
  {
    if claim.frozen then current[i]
    else if Fits(bound, current[i := Envelope(current[i], target)]) then target
    else LowerRate(current[i], target)
  }

  /** What may be outstanding once the first `k` participants moved. */
  ghost function After(bound: Rate, claims: seq<Claim>, targets: seq<Rate>, start: seq<Rate>,
      k: nat): (current: seq<Rate>)
    requires |claims| == |targets| == |start| && k <= |claims|
    ensures |current| == |claims|
    ensures forall i :: k <= i < |claims| ==> current[i] == start[i]
  {
    if k == 0 then start else
      var before := After(bound, claims, targets, start, k - 1);
      before[k - 1 := Envelope(before[k - 1], Next(bound, claims[k - 1], before, targets[k - 1], k - 1))]
  }

  ghost function NextAt(bound: Rate, claims: seq<Claim>, targets: seq<Rate>, start: seq<Rate>, k: nat): Rate
    requires |claims| == |targets| == |start| && k < |claims|
  {
    Next(bound, claims[k], After(bound, claims, targets, start, k), targets[k], k)
  }

  lemma {:induction false} AfterIsValid(bound: Rate, claims: seq<Claim>, targets: seq<Rate>, start: seq<Rate>, k: nat)
    requires |claims| == |targets| == |start| && k <= |claims|
    requires ValidRates(targets) && ValidRates(start)
    ensures ValidRates(After(bound, claims, targets, start, k))
    ensures k < |claims| ==> Valid(NextAt(bound, claims, targets, start, k))
  {
    if k > 0 {
      AfterIsValid(bound, claims, targets, start, k - 1);
    }
  }

  /** From a fitting state every intermediate state fits. */
  lemma {:induction false} RaisingStaysWithinTheBound(bound: Rate, claims: seq<Claim>, targets: seq<Rate>,
      start: seq<Rate>, k: nat)
    requires |claims| == |targets| == |start| && k <= |claims|
    requires Valid(bound) && ValidRates(targets) && ValidRates(start)
    requires Fits(bound, start)
    ensures Fits(bound, After(bound, claims, targets, start, k))
  {
    if k > 0 {
      RaisingStaysWithinTheBound(bound, claims, targets, start, k - 1);
      AfterIsValid(bound, claims, targets, start, k - 1);
      var before := After(bound, claims, targets, start, k - 1);
      assert before[k - 1 := before[k - 1]] == before;
    }
  }

  lemma NotRaisedWhileUnfit(bound: Rate, claim: Claim, rates: seq<Rate>, target: Rate, i: nat)
    requires i < |rates| && Valid(bound) && ValidRates(rates) && Valid(target) && !Fits(bound, rates)
    ensures var next := Next(bound, claim, rates, target, i);
      Covers(rates[i], next) && rates[i := Envelope(rates[i], next)] == rates
  {
    if Fits(bound, rates[i := Envelope(rates[i], target)]) {
      RaisingKeepsUnfit(bound, rates, i, Envelope(rates[i], target));
    }
    assert rates[i := rates[i]] == rates;
  }

  /** From an unfitting state nobody is raised and nothing becomes outstanding. */
  lemma {:induction false} NobodyIsRaisedWhileUnfit(bound: Rate, claims: seq<Claim>, targets: seq<Rate>,
      start: seq<Rate>, k: nat)
    requires |claims| == |targets| == |start| && k <= |claims|
    requires Valid(bound) && ValidRates(targets) && ValidRates(start)
    requires !Fits(bound, start)
    ensures After(bound, claims, targets, start, k) == start
    ensures k < |claims| ==> Covers(start[k], NextAt(bound, claims, targets, start, k))
  {
    if k > 0 {
      NobodyIsRaisedWhileUnfit(bound, claims, targets, start, k - 1);
      NotRaisedWhileUnfit(bound, claims[k - 1], start, targets[k - 1], k - 1);
    }
    if k < |claims| {
      NotRaisedWhileUnfit(bound, claims[k], start, targets[k], k);
    }
  }

  /** The rates a store's budget check sums when participant `k` asks for its `Next`. */
  ghost function Checked(bound: Rate, claims: seq<Claim>, targets: seq<Rate>, start: seq<Rate>, k: nat): seq<Rate>
    requires |claims| == |targets| == |start| && k < |claims|
  {
    var current := After(bound, claims, targets, start, k);
    current[..k] + current[k + 1..] + [Envelope(current[k], NextAt(bound, claims, targets, start, k))]
  }

  /** One direction of that check passes exactly when the direction fitted at the start. */
  lemma DirectionCheck(bound: Rate, claims: seq<Claim>, targets: seq<Rate>, start: seq<Rate>, k: nat)
    requires |claims| == |targets| == |start| && k < |claims|
    requires Valid(bound) && ValidRates(targets) && ValidRates(start)
    ensures Fits(bound, Checked(bound, claims, targets, start, k)) <==> Fits(bound, start)
  {
    var current := After(bound, claims, targets, start, k);
    FitsOthersThen(bound, current, k, Envelope(current[k], NextAt(bound, claims, targets, start, k)));
    if Fits(bound, start) {
      RaisingStaysWithinTheBound(bound, claims, targets, start, k + 1);
    } else {
      NobodyIsRaisedWhileUnfit(bound, claims, targets, start, k + 1);
    }
  }

  /** Everyone's step stays at or below its target. */
  lemma NextIsBelowTarget(bound: Rate, claims: seq<Claim>, current: seq<Rate>, k: nat)
    requires |claims| == |current| && ValidClaims(claims) && k < |claims|
    requires Valid(bound) && ValidRates(current)
    ensures Covers(Target(bound, claims, current, k),
      NextAt(bound, claims, Targets(bound, claims, current), current, k))
    ensures claims[k].frozen ==> NextAt(bound, claims, Targets(bound, claims, current), current, k) == current[k]
  {
    TargetIsValid(bound, claims, current, k);
  }

  lemma TargetsAreValid(bound: Rate, claims: seq<Claim>, current: seq<Rate>)
    requires |claims| == |current| && ValidClaims(claims)
    requires Valid(bound) && ValidRates(current)
    ensures ValidRates(Targets(bound, claims, current))
  {
    forall i | 0 <= i < |claims| ensures Valid(Targets(bound, claims, current)[i]) {
      TargetIsValid(bound, claims, current, i);
    }
  }

  /** All the steps of one pass. */
  ghost function Nexts(bound: Rate, claims: seq<Claim>, current: seq<Rate>): (nexts: seq<Rate>)
    requires |claims| == |current| && ValidClaims(claims)
    ensures |nexts| == |claims|
  {
    seq(|claims|, k requires 0 <= k < |claims| => NextAt(bound, claims, Targets(bound, claims, current), current, k))
  }

  lemma NextsAreValid(bound: Rate, claims: seq<Claim>, current: seq<Rate>)
    requires |claims| == |current| && ValidClaims(claims)
    requires Valid(bound) && ValidRates(current)
    ensures ValidRates(Nexts(bound, claims, current))
  {
    TargetsAreValid(bound, claims, current);
    forall k | 0 <= k < |claims| ensures Valid(Nexts(bound, claims, current)[k]) {
      AfterIsValid(bound, claims, Targets(bound, claims, current), current, k);
    }
  }

  /** When eligible participants may only be retained, the first pass already lands on the targets. */
  lemma RetainedNexts(bound: Rate, claims: seq<Claim>, current: seq<Rate>, k: nat)
    requires |claims| == |current| && ValidClaims(claims) && k < |claims|
    requires Valid(bound) && ValidRates(current)
    requires bound.mode.Limited? && !Feasible(bound, claims, current)
    ensures NextAt(bound, claims, Targets(bound, claims, current), current, k) == Target(bound, claims, current, k)
  {
    var targets := Targets(bound, claims, current);
    TargetsAreValid(bound, claims, current);
    var before := After(bound, claims, targets, current, k);
    if Fits(bound, current) {
      RaisingStaysWithinTheBound(bound, claims, targets, current, k);
      assert before[k := before[k]] == before;
    }
  }

  /** The targets do not move when the steps of a pass are applied. */
  lemma TargetsAreStable(bound: Rate, claims: seq<Claim>, current: seq<Rate>)
    requires |claims| == |current| && ValidClaims(claims)
    requires Valid(bound) && ValidRates(current)
    ensures Targets(bound, claims, Nexts(bound, claims, current)) == Targets(bound, claims, current)
  {
    var nexts := Nexts(bound, claims, current);
    assert FrozenRates(claims, nexts) == FrozenRates(claims, current);
    if bound.mode.Limited? && !Feasible(bound, claims, current) {
      forall k | 0 <= k < |claims| ensures nexts[k] == Target(bound, claims, current, k) {
        RetainedNexts(bound, claims, current, k);
      }
      if Fits(bound, current) {
        FitsIsMonotone(bound, current, nexts);
      }
    }
    assert forall k :: 0 <= k < |claims| ==> Target(bound, claims, nexts, k) == Target(bound, claims, current, k);
  }

  /** Starting at or below targets that fit, a pass grants every target. */
  lemma {:induction false} PassReachesTargets(bound: Rate, claims: seq<Claim>, targets: seq<Rate>,
      start: seq<Rate>, k: nat)
    requires |claims| == |targets| == |start| && k < |claims|
    requires Valid(bound) && ValidRates(targets) && ValidRates(start)
    requires Fits(bound, targets) && forall i :: 0 <= i < |claims| ==>
      Covers(targets[i], start[i]) && (claims[i].frozen ==> start[i] == targets[i])
    ensures forall i :: 0 <= i < |claims| ==> Covers(targets[i], After(bound, claims, targets, start, k)[i])
    ensures NextAt(bound, claims, targets, start, k) == targets[k]
  {
    if k > 0 {
      PassReachesTargets(bound, claims, targets, start, k - 1);
    }
    var current := After(bound, claims, targets, start, k);
    FitsIsMonotone(bound, targets, current[k := Envelope(current[k], targets[k])]);
  }

  /** Applying the steps of one pass and dividing again finishes the move: the
      second pass keeps every target and grants it to everyone, whatever the
      budget, the frozen rates and the starting rates were. */
  lemma SecondPassFinishes(bound: Rate, claims: seq<Claim>, current: seq<Rate>)
    requires |claims| == |current| && ValidClaims(claims)
    requires Valid(bound) && ValidRates(current)
    ensures var nexts := Nexts(bound, claims, current);
      && Targets(bound, claims, nexts) == Targets(bound, claims, current)
      && Nexts(bound, claims, nexts) == Targets(bound, claims, current)
  {
    var nexts, targets := Nexts(bound, claims, current), Targets(bound, claims, current);
    TargetsAreStable(bound, claims, current);
    TargetsAreValid(bound, claims, current);
    NextsAreValid(bound, claims, current);
    TargetsFit(bound, claims, current);
    forall k | 0 <= k < |claims| ensures NextAt(bound, claims, targets, nexts, k) == targets[k] {
      forall i | 0 <= i < |claims|
        ensures Covers(targets[i], nexts[i]) && (claims[i].frozen ==> nexts[i] == targets[i]) {
        NextIsBelowTarget(bound, claims, current, i);
      }
      if Fits(bound, targets) {
        PassReachesTargets(bound, claims, targets, nexts, k);
      }
    }
  }

  // ----- the whole allocation -----

  function InsertById(p: Participant, sorted: seq<Participant>): seq<Participant>
  {
    if sorted == [] || p.id < sorted[0].id then [p] + sorted else [sorted[0]] + InsertById(p, sorted[1..])
  }

  /** The participants in id order. */
  function SortById(participants: seq<Participant>): seq<Participant>
  {
    if participants == [] then [] else InsertById(participants[0], SortById(participants[1..]))
  }

  ghost predicate Ascending(participants: seq<Participant>)
  {
    forall i, j :: 0 <= i < j < |participants| ==> participants[i].id <= participants[j].id
  }

  ghost predicate StrictlyAscending(participants: seq<Participant>)
  {
    forall i, j :: 0 <= i < j < |participants| ==> participants[i].id < participants[j].id
  }

  lemma {:induction false} InsertAddsOne(p: Participant, sorted: seq<Participant>)
    ensures multiset(InsertById(p, sorted)) == multiset{p} + multiset(sorted)
  {
    if sorted != [] && sorted[0].id <= p.id {
      InsertAddsOne(p, sorted[1..]);
      assert sorted == [sorted[0]] + sorted[1..];
    }
  }

  lemma {:induction false} InsertKeepsOrder(p: Participant, sorted: seq<Participant>)
    requires Ascending(sorted)
    ensures Ascending(InsertById(p, sorted))
  {
    if sorted != [] && sorted[0].id <= p.id {
      var rest := InsertById(p, sorted[1..]);
      InsertKeepsOrder(p, sorted[1..]);
      InsertAddsOne(p, sorted[1..]);
      forall j | 0 <= j < |rest| ensures sorted[0].id <= rest[j].id {
        assert rest[j] in multiset(rest);
        assert rest[j] == p || rest[j] in sorted[1..];
      }
    }
  }

  lemma {:induction false} SortSorts(participants: seq<Participant>)
    ensures Ascending(SortById(participants))
    ensures multiset(SortById(participants)) == multiset(participants)
  {
    if participants != [] {
      SortSorts(participants[1..]);
      InsertKeepsOrder(participants[0], SortById(participants[1..]));
      InsertAddsOne(participants[0], SortById(participants[1..]));
      assert participants == [participants[0]] + participants[1..];
    }
  }

  lemma SameFirst(a: seq<Participant>, b: seq<Participant>)
    requires StrictlyAscending(a) && Ascending(b) && multiset(a) == multiset(b) && a != [] && b != []
    ensures a[0] == b[0]
  {
    assert a[0] in multiset(b) && b[0] in multiset(a);
    var j :| 0 <= j < |b| && b[j] == a[0];
    var i :| 0 <= i < |a| && a[i] == b[0];
  }

  lemma SameRest(a: seq<Participant>, b: seq<Participant>)
    requires multiset(a) == multiset(b) && a != [] && b != [] && a[0] == b[0]
    ensures multiset(a[1..]) == multiset(b[1..])
  {
    assert a == [a[0]] + a[1..] && b == [b[0]] + b[1..];
    assert multiset(a[1..]) == multiset(a) - multiset{a[0]};
    assert multiset(b[1..]) == multiset(b) - multiset{a[0]};
  }

  /** Distinct ids have one order only, and rearranging them keeps them distinct. */
  lemma {:induction false} OrderIsUnique(a: seq<Participant>, b: seq<Participant>)
    requires StrictlyAscending(a) && Ascending(b) && multiset(a) == multiset(b)
    ensures a == b
  {
    assert |multiset(a)| == |a| && |multiset(b)| == |b|;
    if a != [] {
      SameFirst(a, b);
      SameRest(a, b);
      OrderIsUnique(a[1..], b[1..]);
      assert a == [a[0]] + a[1..] && b == [b[0]] + b[1..];
    }
  }

  predicate ValidParticipant(p: Participant)
  {
    p.id != 0 && ValidPair(p.outstanding) && ValidClaim(p.claim)
  }

  /** What the allocator accepts, once the participants are in id order. */
  ghost predicate Acceptable(budget: Pair, sorted: seq<Participant>)
  {
    && ValidPair(budget)
    && |sorted| <= MAX_PARTICIPANTS
    && (forall i :: 0 <= i < |sorted| ==> ValidParticipant(sorted[i]))
    && StrictlyAscending(sorted)
  }

  function Claims(participants: seq<Participant>): (claims: seq<Claim>)
    ensures |claims| == |participants|
  {
    seq(|participants|, i requires 0 <= i < |participants| => participants[i].claim)
  }

  function Outstanding(participants: seq<Participant>, direction: Direction): (rates: seq<Rate>)
    ensures |rates| == |participants|
  {
    seq(|participants|, i requires 0 <= i < |participants| =>
      if direction.Upload? then participants[i].outstanding.upload else participants[i].outstanding.download)
  }

  function BoundOf(budget: Pair, direction: Direction): Rate
  {
    if direction.Upload? then budget.upload else budget.download
  }

  lemma AcceptableIsValid(budget: Pair, sorted: seq<Participant>, direction: Direction)
    requires Acceptable(budget, sorted)
    ensures Valid(BoundOf(budget, direction)) && ValidClaims(Claims(sorted))
      && ValidRates(Outstanding(sorted, direction))
  {
  }

  /** The allocation the source promises, free of running totals and loops. */
  ghost function Plan(budget: Pair, sorted: seq<Participant>): (plan: seq<Allocation>)
    requires Acceptable(budget, sorted)
    ensures |plan| == |sorted|
  {
    AcceptableIsValid(budget, sorted, Upload);
    AcceptableIsValid(budget, sorted, Download);
    var claims := Claims(sorted);
    var up, down := Outstanding(sorted, Upload), Outstanding(sorted, Download);
    seq(|sorted|, i requires 0 <= i < |sorted| => Allocation(sorted[i].id,
      Pair(Targets(budget.upload, claims, up)[i], Targets(budget.download, claims, down)[i]),
      Pair(Nexts(budget.upload, claims, up)[i], Nexts(budget.download, claims, down)[i])))
  }

  /** A direction is reported when even an empty bound could not admit the eligible. */
  function Shortage(direction: Direction, bound: Rate, claims: seq<Claim>): seq<CapacityError>
  {
    var count, minimum := Sum(claims, EligibleOf), Sum(claims, MinimumOf);
    if bound.mode.Limited? && (count > bound.bits || minimum > bound.burst)
    then [CapacityError(direction, bound.bits, bound.burst, count, minimum)]
    else []
  }

  method SumUp(rates: seq<Rate>) returns (total: RateTotals)
    requires ValidRates(rates) && |rates| <= MAX_PARTICIPANTS
    ensures fresh(total) && total.Totals(rates)
  {
    total := new RateTotals();
    for i := 0 to |rates|
      invariant total.Totals(rates[..i])
    {
      assert rates[..i + 1] == rates[..i] + [rates[i]];
      SumsOfConcat(rates[..i], [rates[i]]);
      SumsAreBounded(rates[..i]);
      total.Add(rates[i]);
    }
    assert rates[..|rates|] == rates;
  }

  /** The step of participant `i`, decided on a copy of the running totals. */
  method DecideNext(bound: Rate, claim: Claim, current: seq<Rate>, target: Rate, i: nat, total: RateTotals)
      returns (next: Rate)
    requires i < |current| <= MAX_PARTICIPANTS && ValidRates(current) && total.Totals(current)
    requires Valid(bound) && Valid(target)
    ensures next == Next(bound, claim, current, target, i)
  {
    next := LowerRate(current[i], target);
    if claim.frozen {
      next := current[i];
    } else {
      var raised := Envelope(current[i], target);
      var candidate := new RateTotals.Copy(total);
      Replace(candidate, current, i, current[i], raised);
      candidate.TotalsDecideFit(bound, current[i := raised]);
      if candidate.FitsIn(bound) {
        next := target;
      }
    }
  }

  /** One direction, with carry totals instead of repeated sums. */
  method AllocateDirection(bound: Rate, claims: seq<Claim>, start: seq<Rate>)
      returns (targets: seq<Rate>, nexts: seq<Rate>)
    requires |claims| == |start| && ValidClaims(claims)
    requires Valid(bound) && ValidRates(start)
    ensures targets == Targets(bound, claims, start)
    ensures nexts == Nexts(bound, claims, start)
  {
    targets := FairRateTargets(bound, claims, start);
    TargetsAreValid(bound, claims, start);
    var current := start;
    var total := SumUp(current);
    nexts := [];
    for i := 0 to |claims|
      invariant |nexts| == i && fresh(total)
      invariant current == After(bound, claims, targets, start, i)
      invariant total.Totals(current)
      invariant forall k :: 0 <= k < i ==> nexts[k] == NextAt(bound, claims, targets, start, k)
    {
      AfterIsValid(bound, claims, targets, start, i);
      var next := DecideNext(bound, claims[i], current, targets[i], i, total);
      var moved := Envelope(current[i], next);
      Replace(total, current, i, current[i], moved);
      current, nexts := current[i := moved], nexts + [next];
    }
  }

  /** Removing one rate and adding another keeps the totals exact. */
  method Replace(total: RateTotals, ghost current: seq<Rate>, ghost i: nat, before: Rate, rate: Rate)
    requires i < |current| <= MAX_PARTICIPANTS && before == current[i]
    requires ValidRates(current) && Valid(rate) && total.Totals(current)
    modifies total
    ensures total.Totals(current[i := rate])
  {
    SumsAreBounded(current);
    SumsOfUpdate(current, i, rate);
    SumsAreBounded(current[i := rate]);
    SumAtLeast(current, i, BitsOf);
    SumAtLeast(current, i, BurstOf);
    total.Remove(before);
    total.Add(rate);
  }

  method Validate(sorted: seq<Participant>) returns (ok: bool)
    requires Ascending(sorted)
    ensures ok <==> (forall i :: 0 <= i < |sorted| ==> ValidParticipant(sorted[i])) && StrictlyAscending(sorted)
  {
    for i := 0 to |sorted|
      invariant forall k :: 0 <= k < i ==> ValidParticipant(sorted[k])
      invariant forall k :: 0 < k < i ==> sorted[k - 1].id < sorted[k].id
    {
      if !ValidParticipant(sorted[i]) || (i > 0 && sorted[i - 1].id == sorted[i].id) {
        return false;
      }
    }
    forall i, j | 0 <= i < j < |sorted| ensures sorted[i].id < sorted[j].id {
      assert sorted[j - 1].id < sorted[j].id;
      assert i == j - 1 || sorted[i].id <= sorted[j - 1].id;
    }
    return true;
  }

  /** The order in which participants are listed does not matter, neither for
      being accepted nor for what everyone gets. */
  lemma AllocationIgnoresInputOrder(budget: Pair, a: seq<Participant>, b: seq<Participant>)
    requires multiset(a) == multiset(b)
    ensures Acceptable(budget, SortById(a)) ==> SortById(a) == SortById(b)
    ensures Acceptable(budget, SortById(a)) <==> Acceptable(budget, SortById(b))
  {
    SortSorts(a);
    SortSorts(b);
    if Acceptable(budget, SortById(a)) {
      OrderIsUnique(SortById(a), SortById(b));
    } else if Acceptable(budget, SortById(b)) {
      OrderIsUnique(SortById(b), SortById(a));
    }
  }

  /** What is outstanding, in one direction, once the first `k` participants asked for their `Next`. */
  ghost function Standing(budget: Pair, sorted: seq<Participant>, direction: Direction, k: nat): seq<Rate>
    requires Acceptable(budget, sorted) && k <= |sorted|
  {
    AcceptableIsValid(budget, sorted, direction);
    var bound, claims, start := BoundOf(budget, direction), Claims(sorted), Outstanding(sorted, direction);
    After(bound, claims, Targets(bound, claims, start), start, k)
  }

  /** The budget check a store makes for participant `k`'s `Next`: both directions,
      over the other shares followed by the requested envelope. */
  ghost predicate CheckPasses(budget: Pair, sorted: seq<Participant>, k: nat)
    requires Acceptable(budget, sorted) && k < |sorted|
  {
    var next := Plan(budget, sorted)[k].next;
    var up, down := Standing(budget, sorted, Upload, k), Standing(budget, sorted, Download, k);
    && Fits(budget.upload, up[..k] + up[k + 1..] + [Envelope(up[k], next.upload)])
    && Fits(budget.download, down[..k] + down[k + 1..] + [Envelope(down[k], next.download)])
  }

  /** Granting the steps in id order: every budget check passes exactly when both
      directions fitted before the first step. */
  lemma StepsAreAcceptedExactlyWhenBothFit(budget: Pair, sorted: seq<Participant>, k: nat)
    requires Acceptable(budget, sorted) && k < |sorted|
    ensures CheckPasses(budget, sorted, k) <==>
      Fits(budget.upload, Outstanding(sorted, Upload)) && Fits(budget.download, Outstanding(sorted, Download))
  {
    AcceptableIsValid(budget, sorted, Upload);
    AcceptableIsValid(budget, sorted, Download);
    var claims, up, down := Claims(sorted), Outstanding(sorted, Upload), Outstanding(sorted, Download);
    TargetsAreValid(budget.upload, claims, up);
    TargetsAreValid(budget.download, claims, down);
    DirectionCheck(budget.upload, claims, Targets(budget.upload, claims, up), up, k);
    DirectionCheck(budget.download, claims, Targets(budget.download, claims, down), down, k);
  }

  /** The participants once every step was applied and confirmed. */
  ghost function Applied(budget: Pair, sorted: seq<Participant>): (applied: seq<Participant>)
    requires Acceptable(budget, sorted)
    ensures |applied| == |sorted|
  {
    seq(|sorted|, i requires 0 <= i < |sorted| => sorted[i].(outstanding := Plan(budget, sorted)[i].next))
  }

  /** Applying every `Next` and allocating again gives everyone its target, and the targets stay put. */
  lemma AllocatingAgainReachesTargets(budget: Pair, sorted: seq<Participant>)
    requires Acceptable(budget, sorted)
    ensures Acceptable(budget, Applied(budget, sorted))
    ensures forall i :: 0 <= i < |sorted| ==>
      Plan(budget, Applied(budget, sorted))[i].next == Plan(budget, Applied(budget, sorted))[i].target ==
        Plan(budget, sorted)[i].target
  {
    AcceptableIsValid(budget, sorted, Upload);
    AcceptableIsValid(budget, sorted, Download);
    var claims, up, down := Claims(sorted), Outstanding(sorted, Upload), Outstanding(sorted, Download);
    NextsAreValid(budget.upload, claims, up);
    NextsAreValid(budget.download, claims, down);
    SecondPassFinishes(budget.upload, claims, up);
    SecondPassFinishes(budget.download, claims, down);
    var applied := Applied(budget, sorted);
    assert Claims(applied) == claims;
    assert Outstanding(applied, Upload) == Nexts(budget.upload, claims, up);
    assert Outstanding(applied, Download) == Nexts(budget.download, claims, down);
  }
}
