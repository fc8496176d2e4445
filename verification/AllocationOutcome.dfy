/** What an allocation gives everyone, said of its inputs and its outcome alone:
    plain sums over the participants, no targets function and no running state. */
module AllocationOutcome {
  import opened Sums
  import opened Rates
  import opened RateAllocation

  function Side(p: Pair, d: Direction): Rate
  {
    match d case Upload => p.upload case Download => p.download
  }

  function FrozenBits(d: Direction): Participant -> int
  {
    (p: Participant) => if p.claim.frozen then Side(p.outstanding, d).bits else 0
  }

  function FrozenBurst(d: Direction): Participant -> int
  {
    (p: Participant) => if p.claim.frozen then Side(p.outstanding, d).burst else 0
  }

  function StandingBits(d: Direction): Participant -> int
  {
    (p: Participant) => Side(p.outstanding, d).bits
  }

  function StandingBurst(d: Direction): Participant -> int
  {
    (p: Participant) => Side(p.outstanding, d).burst
  }

  function TargetBits(d: Direction): Allocation -> int
  {
    (a: Allocation) => Side(a.target, d).bits
  }

  function TargetBurst(d: Direction): Allocation -> int
  {
    (a: Allocation) => Side(a.target, d).burst
  }

  /** One for a participant that is to be served, nothing for any other. */
  function ToServe(p: Participant): int
  {
    if p.claim.eligible && !p.claim.frozen then 1 else 0
  }

  function BurstToServe(p: Participant): int
  {
    if p.claim.eligible && !p.claim.frozen then p.claim.minimumBurst else 0
  }

  /** The frozen participants leave a limited bound unbroken. */
  ghost predicate FrozenFit(bound: Rate, ps: seq<Participant>, d: Direction)
  {
    && (forall p :: p in ps && p.claim.frozen ==> !Side(p.outstanding, d).mode.Unlimited?)
    && Sum(ps, FrozenBits(d)) <= bound.bits && Sum(ps, FrozenBurst(d)) <= bound.burst
  }

  /** They leave a bit and the minimum burst for everyone to be served. */
  ghost predicate RoomForAll(bound: Rate, ps: seq<Participant>, d: Direction)
  {
    && Sum(ps, ToServe) <= bound.bits - Sum(ps, FrozenBits(d))
    && Sum(ps, BurstToServe) <= bound.burst - Sum(ps, FrozenBurst(d))
  }

  /** What is outstanding altogether fits a limited bound. */
  ghost predicate StandingFits(bound: Rate, ps: seq<Participant>, d: Direction)
  {
    && (forall p :: p in ps ==> !Side(p.outstanding, d).mode.Unlimited?)
    && Sum(ps, StandingBits(d)) <= bound.bits && Sum(ps, StandingBurst(d)) <= bound.burst
  }

  /** The target of one participant: frozen ones keep theirs, those not to be served
      get nothing, an unlimited bound gives the unlimited rate, a limited one that
      cannot serve everyone lets everyone keep what fits, and any other one serves. */
  ghost predicate TargetIs(bound: Rate, ps: seq<Participant>, d: Direction, p: Participant, target: Rate)
  {
    if p.claim.frozen then target == Side(p.outstanding, d)
    else if !p.claim.eligible then target == Rate(Blocked, 0, 0)
    else
      match bound.mode
      case Unlimited => target == Rate(Unlimited, 0, 0)
      case Blocked => target == Rate(Blocked, 0, 0)
      case Limited =>
        if !FrozenFit(bound, ps, d) then target == Rate(Blocked, 0, 0)
        else if !RoomForAll(bound, ps, d) then
          target == if StandingFits(bound, ps, d) then Side(p.outstanding, d) else Rate(Blocked, 0, 0)
        else target.mode == Limited && 1 <= target.bits && p.claim.minimumBurst <= target.burst
  }

  /** Where a limited bound serves somebody, it is used up, and dealt out evenly. */
  ghost predicate DealtOut(bound: Rate, ps: seq<Participant>, d: Direction, plan: seq<Allocation>)
    requires |plan| == |ps|
  {
    bound.mode.Limited? && FrozenFit(bound, ps, d) && RoomForAll(bound, ps, d) && Sum(ps, ToServe) > 0 ==>
      && Sum(plan, TargetBits(d)) == bound.bits && Sum(plan, TargetBurst(d)) == bound.burst
      && forall i, j :: 0 <= i < j < |ps| && ToServe(ps[i]) == 1 && ToServe(ps[j]) == 1 ==>
           Even(Side(plan[i].target, d), Side(plan[j].target, d), ps[i].claim.minimumBurst, ps[j].claim.minimumBurst)
  }

  /** An earlier target is at most one bit, and one byte above the minimum burst, ahead of a later one. */
  predicate Even(a: Rate, b: Rate, minimumA: int, minimumB: int)
  {
    0 <= a.bits - b.bits <= 1 && 0 <= (a.burst - minimumA) - (b.burst - minimumB) <= 1
  }

  /** What is outstanding once the first `k` participants were granted their step. */
  function Granted(ps: seq<Participant>, plan: seq<Allocation>, d: Direction, k: nat): seq<Rate>
    requires |plan| == |ps| && k <= |ps|
  {
    seq(|ps|, j requires 0 <= j < |ps| =>
      if j < k then Envelope(Side(ps[j].outstanding, d), Side(plan[j].next, d)) else Side(ps[j].outstanding, d))
  }

  /** The step of one participant: its target if that fits beside what the earlier
      ones were granted and the later ones hold, else no more than it has of it. */
  ghost predicate NextIs(bound: Rate, ps: seq<Participant>, d: Direction, plan: seq<Allocation>, i: nat)
    requires |plan| == |ps| && i < |ps|
  {
    var now, target, next := Side(ps[i].outstanding, d), Side(plan[i].target, d), Side(plan[i].next, d);
    next ==
      if ps[i].claim.frozen then now
      else if Fits(bound, Granted(ps, plan, d, i)[i := Envelope(now, target)]) then target
      else LowerRate(now, target)
  }

  ghost predicate DirectionIs(budget: Pair, ps: seq<Participant>, plan: seq<Allocation>, d: Direction)
  {
    && |plan| == |ps|
    && (forall i :: 0 <= i < |ps| ==> plan[i].id == ps[i].id)
    && (forall i :: 0 <= i < |ps| ==> TargetIs(Side(budget, d), ps, d, ps[i], Side(plan[i].target, d)))
    && DealtOut(Side(budget, d), ps, d, plan)
    && (forall i :: 0 <= i < |ps| ==> NextIs(Side(budget, d), ps, d, plan, i))
  }

  /** An unlimited bound gives everyone to be served the unlimited rate, as the target and at once. */
  ghost predicate ServesAtOnce(budget: Pair, ps: seq<Participant>, plan: seq<Allocation>, d: Direction)
    requires |plan| == |ps|
  {
    Side(budget, d).mode.Unlimited? ==>
      forall i :: 0 <= i < |ps| && !ps[i].claim.frozen ==>
        Side(plan[i].target, d) == Side(plan[i].next, d) ==
          if ps[i].claim.eligible then Rate(Unlimited, 0, 0) else Rate(Blocked, 0, 0)
  }

  /** What an allocation gives, in both directions. */
  ghost predicate AllocationIs(budget: Pair, ps: seq<Participant>, plan: seq<Allocation>)
  {
    |plan| == |ps| && forall d: Direction :: DirectionIs(budget, ps, plan, d) && ServesAtOnce(budget, ps, plan, d)
  }

  /** A direction is short when not even an empty limited bound could serve everyone. */
  function Short(budget: Pair, ps: seq<Participant>, d: Direction): seq<CapacityError>
  {
    var bound := Side(budget, d);
    if bound.mode.Limited? && (Sum(ps, ToServe) > bound.bits || Sum(ps, BurstToServe) > bound.burst)
    then [CapacityError(d, bound.bits, bound.burst, Sum(ps, ToServe), Sum(ps, BurstToServe))]
    else []
  }

  /** The inputs the allocator takes: valid rates and minima, no id missing or used twice. */
  ghost predicate ValidInput(budget: Pair, ps: seq<Participant>)
  {
    && Valid(budget.upload) && Valid(budget.download) && |ps| <= 32768
    && (forall p :: p in ps ==>
          && p.id != 0 && Valid(p.outstanding.upload) && Valid(p.outstanding.download)
          && 1 <= p.claim.minimumBurst <= 0x10_0000)
    && forall i, j :: 0 <= i < j < |ps| ==> ps[i].id != ps[j].id
  }

  // ----- the sums of the declarative plan, as sums over the participants -----

  lemma {:induction false} SumsAgree<T, U>(a: seq<T>, b: seq<U>, f: T -> int, g: U -> int)
    requires |a| == |b| && forall i :: 0 <= i < |a| ==> f(a[i]) == g(b[i])
    ensures Sum(a, f) == Sum(b, g)
  {
    SumMonotone(a, b, f, g);
    SumMonotone(b, a, g, f);
  }

  lemma {:induction false} ServedSums(ps: seq<Participant>)
    ensures Sum(Claims(ps), EligibleOf) == Sum(ps, ToServe) && Sum(Claims(ps), MinimumOf) == Sum(ps, BurstToServe)
  {
    SumsAgree(Claims(ps), ps, EligibleOf, ToServe);
    SumsAgree(Claims(ps), ps, MinimumOf, BurstToServe);
  }

  lemma {:induction false} FrozenSums(ps: seq<Participant>, d: Direction)
    requires forall i :: 0 <= i < |ps| ==> Valid(Side(ps[i].outstanding, d))
    ensures var frozen := FrozenRates(Claims(ps), Outstanding(ps, d));
      && Sum(frozen, BitsOf) == Sum(ps, FrozenBits(d)) && Sum(frozen, BurstOf) == Sum(ps, FrozenBurst(d))
      && (Sum(frozen, UnlimitedOf) == 0 <==> forall p :: p in ps && p.claim.frozen ==>
        !Side(p.outstanding, d).mode.Unlimited?)
  {
    var frozen := FrozenRates(Claims(ps), Outstanding(ps, d));
    SumsAgree(frozen, ps, BitsOf, FrozenBits(d));
    SumsAgree(frozen, ps, BurstOf, FrozenBurst(d));
    SumZero(frozen, UnlimitedOf);
    if Sum(frozen, UnlimitedOf) == 0 {
      forall p | p in ps && p.claim.frozen ensures !Side(p.outstanding, d).mode.Unlimited? {
        var i :| 0 <= i < |ps| && ps[i] == p;
        assert UnlimitedOf(frozen[i]) == 0;
      }
    } else {
      var i :| 0 <= i < |frozen| && UnlimitedOf(frozen[i]) != 0;
      assert ps[i] in ps;
    }
  }

  lemma {:induction false} StandingSums(ps: seq<Participant>, d: Direction)
    requires forall i :: 0 <= i < |ps| ==> Valid(Side(ps[i].outstanding, d))
    ensures var rates := Outstanding(ps, d);
      && Sum(rates, BitsOf) == Sum(ps, StandingBits(d)) && Sum(rates, BurstOf) == Sum(ps, StandingBurst(d))
      && (Sum(rates, UnlimitedOf) == 0 <==> forall p :: p in ps ==> !Side(p.outstanding, d).mode.Unlimited?)
  {
    var rates := Outstanding(ps, d);
    SumsAgree(rates, ps, BitsOf, StandingBits(d));
    SumsAgree(rates, ps, BurstOf, StandingBurst(d));
    SumZero(rates, UnlimitedOf);
    if Sum(rates, UnlimitedOf) == 0 {
      forall p | p in ps ensures !Side(p.outstanding, d).mode.Unlimited? {
        var i :| 0 <= i < |ps| && ps[i] == p;
        assert UnlimitedOf(rates[i]) == 0;
      }
    } else {
      var i :| 0 <= i < |rates| && UnlimitedOf(rates[i]) != 0;
      assert ps[i] in ps;
    }
  }

  /** The limited cases, decided by the plain sums. */
  lemma {:induction false} LimitedCases(bound: Rate, ps: seq<Participant>, d: Direction)
    requires bound.mode.Limited? && ValidClaims(Claims(ps)) && forall i :: 0 <= i < |ps| ==>
      Valid(Side(ps[i].outstanding, d))
    ensures var claims, rates := Claims(ps), Outstanding(ps, d);
      && (Starved(bound, claims, rates) <==> !FrozenFit(bound, ps, d))
      && (Feasible(bound, claims, rates) <==> FrozenFit(bound, ps, d) && RoomForAll(bound, ps, d))
      && (Fits(bound, rates) <==> StandingFits(bound, ps, d))
  {
    ServedSums(ps);
    FrozenSums(ps, d);
    StandingSums(ps, d);
  }

  lemma {:induction false} TargetMeans(bound: Rate, ps: seq<Participant>, d: Direction, i: nat)
    requires i < |ps| && Valid(bound) && ValidClaims(Claims(ps)) && forall k :: 0 <= k < |ps| ==>
      Valid(Side(ps[k].outstanding, d))
    ensures TargetIs(bound, ps, d, ps[i], Target(bound, Claims(ps), Outstanding(ps, d), i))
  {
    var claims, rates := Claims(ps), Outstanding(ps, d);
    if bound.mode.Limited? {
      LimitedCases(bound, ps, d);
      if claims[i].Wants() && Feasible(bound, claims, rates) {
        ClaimWithinTotals(claims, i);
        FrozenSumsAreNonNegative(claims, rates);
        DealingIsExact(RemainingBits(bound, claims, rates), Sum(claims, EligibleOf), Sum(claims[..i], EligibleOf));
      }
    }
  }

  lemma {:induction false} ServedIsPositive(ps: seq<Participant>)
    ensures Sum(ps, ToServe) > 0 ==> exists i :: 0 <= i < |ps| && Claims(ps)[i].Wants()
  {
    SumZero(ps, ToServe);
    if Sum(ps, ToServe) > 0 {
      var i :| 0 <= i < |ps| && ToServe(ps[i]) != 0;
      assert Claims(ps)[i].Wants();
    }
  }

  lemma {:induction false} TargetsAreDealtOut(bound: Rate, ps: seq<Participant>, d: Direction, plan: seq<Allocation>)
    requires |plan| == |ps| && Valid(bound) && ValidClaims(Claims(ps))
    requires forall k :: 0 <= k < |ps| ==> Valid(Side(ps[k].outstanding, d))
    requires forall k :: 0 <= k < |ps| ==> Side(plan[k].target, d) == Target(bound, Claims(ps), Outstanding(ps, d), k)
    ensures DealtOut(bound, ps, d, plan)
  {
    var claims, rates := Claims(ps), Outstanding(ps, d);
    if bound.mode.Limited? && FrozenFit(bound, ps, d) && RoomForAll(bound, ps, d) && Sum(ps, ToServe) > 0 {
      LimitedCases(bound, ps, d);
      ServedIsPositive(ps);
      TargetsExhaustTheBound(bound, claims, rates);
      TargetsAreValid(bound, claims, rates);
      var targets := Targets(bound, claims, rates);
      NoneUnlimited(targets);
      SumsAgree(targets, plan, BitsOf, TargetBits(d));
      SumsAgree(targets, plan, BurstOf, TargetBurst(d));
      forall i, j | 0 <= i < j < |ps| && ToServe(ps[i]) == 1 && ToServe(ps[j]) == 1
        ensures Even(Side(plan[i].target, d), Side(plan[j].target, d), ps[i].claim.minimumBurst,
          ps[j].claim.minimumBurst)
      {
        TargetsAreFair(bound, claims, rates, i, j);
      }
    }
  }

  lemma {:induction false} NoneUnlimited(rates: seq<Rate>)
    requires ValidRates(rates) && Sum(rates, UnlimitedOf) == 0
    ensures forall i :: 0 <= i < |rates| ==> BitsOf(rates[i]) == rates[i].bits && BurstOf(rates[i]) == rates[i].burst
  {
  }

  lemma {:induction false} GrantedStep(ps: seq<Participant>, plan: seq<Allocation>, d: Direction, k: nat)
    requires |plan| == |ps| && k < |ps|
    ensures Granted(ps, plan, d, k)[k] == Side(ps[k].outstanding, d)
    ensures Granted(ps, plan, d, k + 1) ==
      Granted(ps, plan, d, k)[k := Envelope(Side(ps[k].outstanding, d), Side(plan[k].next, d))]
  {
  }

  lemma {:induction false} AfterStep(bound: Rate, claims: seq<Claim>, targets: seq<Rate>, start: seq<Rate>, k: nat)
    requires |claims| == |targets| == |start| && k < |claims|
    ensures After(bound, claims, targets, start, k + 1) ==
      After(bound, claims, targets, start, k)[k := Envelope(start[k], NextAt(bound, claims, targets, start, k))]
  {
  }

  /** What stands after some steps is what those steps granted. */
  lemma {:induction false} AfterIsGranted(bound: Rate, ps: seq<Participant>, d: Direction, plan: seq<Allocation>,
      targets: seq<Rate>, start: seq<Rate>, k: nat)
    requires |plan| == |ps| == |targets| && k <= |ps| && start == Outstanding(ps, d)
    requires forall i {:trigger NextAt(bound, Claims(ps), targets, start, i)} :: 0 <= i < |ps| ==>
      Side(plan[i].next, d) == NextAt(bound, Claims(ps), targets, start, i)
    ensures After(bound, Claims(ps), targets, start, k) == Granted(ps, plan, d, k)
  {
    if k == 0 {
      assert start == Granted(ps, plan, d, 0);
    } else {
      AfterIsGranted(bound, ps, d, plan, targets, start, k - 1);
      GrantedStep(ps, plan, d, k - 1);
      AfterStep(bound, Claims(ps), targets, start, k - 1);
    }
  }

  lemma {:induction false} NextMeans(bound: Rate, ps: seq<Participant>, d: Direction, plan: seq<Allocation>,
      targets: seq<Rate>, i: nat)
    requires |plan| == |ps| == |targets| && i < |ps|
    requires forall k :: 0 <= k < |ps| ==>
      Side(plan[k].next, d) == NextAt(bound, Claims(ps), targets, Outstanding(ps, d), k)
    requires Side(plan[i].target, d) == targets[i]
    ensures NextIs(bound, ps, d, plan, i)
  {
    AfterIsGranted(bound, ps, d, plan, targets, Outstanding(ps, d), i);
  }

  lemma {:induction false} UnlimitedServesAtOnce(budget: Pair, ps: seq<Participant>, plan: seq<Allocation>,
      d: Direction)
    requires DirectionIs(budget, ps, plan, d)
    ensures ServesAtOnce(budget, ps, plan, d)
  {
    if Side(budget, d).mode.Unlimited? {
      forall i | 0 <= i < |ps| && !ps[i].claim.frozen
        ensures Side(plan[i].target, d) == Side(plan[i].next, d) ==
          if ps[i].claim.eligible then Rate(Unlimited, 0, 0) else Rate(Blocked, 0, 0)
      {
        assert TargetIs(Side(budget, d), ps, d, ps[i], Side(plan[i].target, d));
        assert NextIs(Side(budget, d), ps, d, plan, i);
      }
    }
  }

  /** Both directions of the declarative plan mean what is said above. */
  lemma {:induction false} PlanMeans(budget: Pair, ps: seq<Participant>, d: Direction)
    requires Acceptable(budget, ps)
    ensures DirectionIs(budget, ps, Plan(budget, ps), d)
  {
    AcceptableIsValid(budget, ps, d);
    var plan, bound, claims, rates := Plan(budget, ps), Side(budget, d), Claims(ps), Outstanding(ps, d);
    forall i | 0 <= i < |ps| ensures Valid(Side(ps[i].outstanding, d)) {
      assert ValidParticipant(ps[i]);
    }
    forall i | 0 <= i < |ps| ensures TargetIs(bound, ps, d, ps[i], Side(plan[i].target, d)) {
      TargetMeans(bound, ps, d, i);
    }
    TargetsAreDealtOut(bound, ps, d, plan);
    forall i | 0 <= i < |ps| ensures NextIs(bound, ps, d, plan, i) {
      NextMeans(bound, ps, d, plan, Targets(bound, claims, rates), i);
    }
  }

  lemma {:induction false} PlanIsRight(budget: Pair, ps: seq<Participant>)
    requires Acceptable(budget, ps)
    ensures AllocationIs(budget, ps, Plan(budget, ps))
  {
    forall d ensures DirectionIs(budget, ps, Plan(budget, ps), d) && ServesAtOnce(budget, ps, Plan(budget, ps), d) {
      PlanMeans(budget, ps, d);
      UnlimitedServesAtOnce(budget, ps, Plan(budget, ps), d);
    }
  }

  lemma {:induction false} ShortageMeans(budget: Pair, ps: seq<Participant>, d: Direction)
    ensures Shortage(d, Side(budget, d), Claims(ps)) == Short(budget, ps, d)
  {
    ServedSums(ps);
  }

  // ----- the inputs -----

  /** No id is used twice, said of positions and, so that sorting keeps it, of the bag. */
  ghost predicate DistinctIds(ps: seq<Participant>)
  {
    forall i, j :: 0 <= i < j < |ps| ==> ps[i].id != ps[j].id
  }

  ghost predicate DistinctBag(bag: multiset<Participant>)
  {
    (forall p :: p in bag ==> bag[p] == 1) && forall p, q :: p in bag && q in bag && p.id == q.id ==> p == q
  }

  lemma {:induction false} DistinctOnce(ps: seq<Participant>, p: Participant)
    requires DistinctIds(ps) && p in ps
    ensures multiset(ps)[p] == 1
  {
    var first, rest := ps[0], ps[1..];
    assert multiset(ps) == multiset{first} + multiset(rest) by {
      assert ps == [first] + rest;
    }
    if p in rest {
      DistinctOnce(rest, p);
      assert p != first;
    } else {
      assert p !in multiset(rest);
    }
  }

  lemma {:induction false} RepeatedTwice(ps: seq<Participant>, i: nat, j: nat)
    requires i < j < |ps| && ps[i] == ps[j]
    ensures multiset(ps)[ps[i]] >= 2
  {
    assert multiset(ps) == multiset(ps[..j]) + multiset(ps[j..]) by {
      assert ps == ps[..j] + ps[j..];
    }
    assert ps[..j][i] in multiset(ps[..j]) && ps[j..][0] in multiset(ps[j..]);
  }

  lemma {:induction false} DistinctIsBag(ps: seq<Participant>)
    requires DistinctIds(ps)
    ensures DistinctBag(multiset(ps))
  {
    forall p | p in multiset(ps) ensures multiset(ps)[p] == 1 {
      DistinctOnce(ps, p);
    }
    forall p, q | p in multiset(ps) && q in multiset(ps) && p.id == q.id ensures p == q {
      var i :| 0 <= i < |ps| && ps[i] == p;
      var j :| 0 <= j < |ps| && ps[j] == q;
    }
  }

  lemma {:induction false} BagIsDistinct(ps: seq<Participant>)
    requires DistinctBag(multiset(ps))
    ensures DistinctIds(ps)
  {
    forall i, j | 0 <= i < j < |ps| ensures ps[i].id != ps[j].id {
      assert ps[i] in multiset(ps) && ps[j] in multiset(ps);
      if ps[i].id == ps[j].id {
        RepeatedTwice(ps, i, j);
      }
    }
  }

  lemma {:induction false} SortedIsDistinct(ps: seq<Participant>, sorted: seq<Participant>)
    requires Ascending(sorted) && multiset(sorted) == multiset(ps)
    ensures StrictlyAscending(sorted) <==> DistinctIds(ps)
  {
    if DistinctIds(ps) {
      DistinctIsBag(ps);
      BagIsDistinct(sorted);
    }
    if StrictlyAscending(sorted) {
      DistinctIsBag(sorted);
      BagIsDistinct(ps);
    }
  }

  lemma {:induction false} ValidOnes(ps: seq<Participant>, sorted: seq<Participant>)
    requires multiset(sorted) == multiset(ps)
    ensures |sorted| == |ps|
    ensures (forall i :: 0 <= i < |sorted| ==> ValidParticipant(sorted[i])) <==> forall p :: p in ps ==>
      ValidParticipant(p)
  {
    assert |multiset(sorted)| == |sorted| && |multiset(ps)| == |ps|;
    forall i | 0 <= i < |sorted| ensures sorted[i] in ps {
      assert sorted[i] in multiset(ps);
    }
    forall p | p in ps ensures p in sorted {
      assert p in multiset(sorted);
    }
  }

  lemma {:induction false} AcceptableMeans(budget: Pair, participants: seq<Participant>)
    ensures Acceptable(budget, SortById(participants)) <==> ValidInput(budget, participants)
  {
    var sorted := SortById(participants);
    SortSorts(participants);
    SortedIsDistinct(participants, sorted);
    ValidOnes(participants, sorted);
  }

  /** The allocator: sort, validate, then both directions. It refuses exactly the
      invalid inputs, and otherwise gives everyone what `DirectionIs` says. */
  method AllocateSharedRates(budget: Pair, participants: seq<Participant>) returns (outcome: Outcome)
    ensures outcome.Allocated? <==> ValidInput(budget, participants)
    ensures outcome.Allocated? ==>
      var sorted := SortById(participants);
      && multiset(sorted) == multiset(participants)
        && (forall i, j :: 0 <= i < j < |sorted| ==> sorted[i].id < sorted[j].id)
      && AllocationIs(budget, sorted, outcome.allocations)
      && outcome.constraints == Short(budget, sorted, Upload) + Short(budget, sorted, Download)
  {
    SortSorts(participants);
    AcceptableMeans(budget, participants);
    var sorted := SortById(participants);
    assert |multiset(sorted)| == |multiset(participants)|;
    if !ValidPair(budget) || |participants| > MAX_PARTICIPANTS {
      return Invalid;
    }
    var ok := Validate(sorted);
    if !ok {
      return Invalid;
    }
    AcceptableIsValid(budget, sorted, Upload);
    AcceptableIsValid(budget, sorted, Download);
    var claims := Claims(sorted);
    var upTargets, upNexts := AllocateDirection(budget.upload, claims, Outstanding(sorted, Upload));
    var downTargets, downNexts := AllocateDirection(budget.download, claims, Outstanding(sorted, Download));
    var result := seq(|sorted|, i requires 0 <= i < |sorted| =>
      Allocation(sorted[i].id, Pair(upTargets[i], downTargets[i]), Pair(upNexts[i], downNexts[i])));
    assert result == Plan(budget, sorted);
    PlanIsRight(budget, sorted);
    ShortageMeans(budget, sorted, Upload);
    ShortageMeans(budget, sorted, Download);
    outcome := Allocated(result, Shortage(Upload, budget.upload, claims) + Shortage(Download, budget.download, claims));
  }
}
