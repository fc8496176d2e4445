/** What holds in every honest run of the shared-rate authority. */
module AuthoritySafety {
  import opened MapSums
  import opened Rates
  import opened Results
  import opened Authority
  import opened AuthorityRuns

  /** The world after a list of events. */
  ghost function After(w: World, events: seq<Event>): World
    decreases |events|
  {
    if events == [] then w else After(Next(w, events[0]), events[1..])
  }

  ghost predicate HonestRun(w: World, events: seq<Event>)
    decreases |events|
  {
    events != [] ==> Honest(w, events[0]) && HonestRun(Next(w, events[0]), events[1..])
  }

  lemma {:induction false} RunKeepsInv(w: World, events: seq<Event>)
    requires Inv(w) && HonestRun(w, events)
    ensures Inv(After(w, events))
    decreases |events|
  {
    if events != [] {
      EventKeepsInv(w, events[0]);
      RunKeepsInv(Next(w, events[0]), events[1..]);
    }
  }

  // ----- rates -----

  /** The rate pair a node enforces for a share right now. */
  ghost function Enforcing(w: World, id: Id): Pair
    requires SharesOk(w) && id in w.store.shares
  {
    ShareIn(w, id);
    w.issued[id][w.enforced[id]]
  }

  /** A share's outstanding rate covers what its node enforces and everything it may still apply. */
  lemma OutstandingCoversTheNode(w: World, id: Id, r: nat)
    requires Inv(w) && id in w.store.shares && w.enforced[id] <= r < |w.issued[id]|
    ensures CoversPair(w.store.shares[id].outstanding, Enforcing(w, id))
    ensures CoversPair(w.store.shares[id].outstanding, w.issued[id][r])
  {
    ShareIn(w, id);
  }

  /** The envelope of every revision from `first` on. */
  function EnvelopeOf(history: seq<Pair>, first: nat): Pair
    requires first < |history|
    decreases |history|
  {
    var last := |history| - 1;
    if first == last then history[last] else EnvelopePair(EnvelopeOf(history[..last], first), history[last])
  }

  /** The outstanding rate is the envelope of the last proven revision and all that followed. */
  predicate Tight(share: Share, history: seq<Pair>)
  {
    0 <= share.applied < |history| && share.outstanding == EnvelopeOf(history, share.applied)
  }

  ghost predicate AllTight(w: World)
    requires SharesOk(w)
  {
    forall id :: id in w.store.shares ==> Tight(w.store.shares[id], w.issued[id])
  }

  lemma MoveStaysTight(before: Share, after: Share, history: seq<Pair>, enforced: nat, requested: bool)
    requires Covered(before, history, enforced) && Move(before, after, enforced, requested) && Tight(before, history)
    ensures Tight(after, if before.revision == after.revision then history else history + [after.desired])
  {
    assert (history + [after.desired])[..|history|] == history;
  }

  lemma ShareStaysTight(w: World, t: State, requested: set<Id>, id: Id)
    requires SharesOk(w) && AllTight(w) && Legal(w, t, requested) && id in t.shares
    ensures Tight(t.shares[id], Advance(w, t).issued[id])
  {
    var before := Before(w.store, id, t.shares[id]);
    if id in w.store.shares {
      ShareIn(w, id);
    }
    assert Move(before, t.shares[id], Enforced(w, id), id in requested);
    MoveStaysTight(before, t.shares[id], History(w.issued, id), Enforced(w, id), id in requested);
  }

  /** No event makes a share hold more than its unproven revisions ask for. */
  lemma EventStaysTight(w: World, e: Event)
    requires Inv(w) && AllTight(w) && Honest(w, e)
    ensures SharesOk(Next(w, e)) && AllTight(Next(w, e))
  {
    EventKeepsInv(w, e);
    if !e.NodeApply? {
      EventIsSound(w, e);
      var t := StoreAfter(w.store, e);
      forall id | id in t.shares ensures Tight(t.shares[id], Next(w, e).issued[id]) {
        ShareStaysTight(w, t, Requested(e), id);
      }
    }
  }

  /** In every honest run the outstanding rate is exactly the envelope of what was
      issued since the last proof. */
  lemma {:induction false} RunStaysTight(w: World, events: seq<Event>)
    requires Inv(w) && AllTight(w) && HonestRun(w, events)
    ensures SharesOk(After(w, events)) && AllTight(After(w, events))
    decreases |events|
  {
    if events != [] {
      EventKeepsInv(w, events[0]);
      EventStaysTight(w, events[0]);
      RunStaysTight(Next(w, events[0]), events[1..]);
    }
  }

  /** So it is from the empty store on. */
  lemma OutstandingIsTheEnvelope(events: seq<Event>)
    requires HonestRun(START, events)
    ensures Inv(After(START, events)) && AllTight(After(START, events))
  {
    StartIsSafe();
    RunKeepsInv(START, events);
    RunStaysTight(START, events);
  }

  lemma {:induction false} EnvelopeOfIsLeast(history: seq<Pair>, first: nat, bound: Pair)
    requires first < |history| && ValidPair(bound) && forall r :: 0 <= r < |history| ==> ValidPair(history[r])
    ensures ValidPair(EnvelopeOf(history, first))
    ensures CoversPair(bound, EnvelopeOf(history, first)) <==> forall r :: first <= r < |history| ==>
      CoversPair(bound, history[r])
    decreases |history|
  {
    var last := |history| - 1;
    if first < last {
      var older := history[..last];
      EnvelopeOfIsLeast(older, first, bound);
      EnvelopeIsLeastUpperBound(EnvelopeOf(older, first).upload, history[last].upload, bound.upload);
      EnvelopeIsLeastUpperBound(EnvelopeOf(older, first).download, history[last].download, bound.download);
      if CoversPair(bound, EnvelopeOf(history, first)) {
        forall r | first <= r < |history| ensures CoversPair(bound, history[r]) {
          assert r < last ==> older[r] == history[r];
        }
      }
    }
  }

  lemma TightIsLeast(share: Share, history: seq<Pair>, enforced: nat, bound: Pair)
    requires Covered(share, history, enforced) && Tight(share, history) && ValidPair(bound)
    ensures CoversPair(bound, share.outstanding) <==> forall r :: share.applied <= r < |history| ==>
      CoversPair(bound, history[r])
    ensures share.applied == share.revision ==> share.outstanding == share.desired == history[enforced]
  {
    EnvelopeOfIsLeast(history, share.applied, bound);
  }

  /** The outstanding rate is the least one that covers every revision a node may
      enforce as far as it has proved, and once the latest is proved it is exactly
      what the node enforces. */
  lemma OutstandingIsLeast(w: World, id: Id, bound: Pair)
    requires SharesOk(w) && AllTight(w) && id in w.store.shares && ValidPair(bound)
    ensures var share := w.store.shares[id];
      && (CoversPair(bound, share.outstanding) <==> forall r :: share.applied <= r < |w.issued[id]| ==>
        CoversPair(bound, w.issued[id][r]))
      && (share.applied == share.revision ==> share.outstanding == share.desired == Enforcing(w, id))
  {
    ShareIn(w, id);
    TightIsLeast(w.store.shares[id], w.issued[id], w.enforced[id], bound);
  }

  /** The shares an accepted report speaks for at their latest revision. */
  ghost predicate Proves(s: State, e: ReportEvent, id: Id)
  {
    match e
    case Confirm(node, installation, grant, revision, applied) => id == grant
      && ConfirmRateShare(s, node, installation, grant, revision, applied).Ok?
    case Acknowledge(node, installation, claims) => id in s.shares && Claimed(s.shares[id], id, claims)
      && AcknowledgeConfiguration(s, node, installation, claims).Ok?
    case AcknowledgeUpdates(node, installation, base, entries) => id in entries
      && AcknowledgeAuthority(s, node, installation, base, entries).Ok?
    case _ => false
  }

  lemma ProvenIsSettled(s: State, e: ReportEvent, id: Id)
    requires Proves(s, e, id)
    ensures id in s.shares && id in AfterReport(s, e).shares && AfterReport(s, e).shares[id] == Settled(s.shares[id])
  {
  }

  /** An accepted report gives back everything its node no longer needs: what stays
      outstanding is what the node enforces. */
  lemma AcceptedReportIsExact(w: World, e: ReportEvent, id: Id)
    requires Inv(w) && AllTight(w) && HonestReport(w, e) && Proves(w.store, e, id)
    ensures var v := Next(w, OfReport(e));
      SharesOk(v) && id in v.store.shares && v.store.shares[id].outstanding == Enforcing(v, id)
  {
    EventKeepsInv(w, OfReport(e));
    EventStaysTight(w, OfReport(e));
    ProvenIsSettled(w.store, e, id);
    OutstandingIsLeast(Next(w, OfReport(e)), id, ZERO);
  }

  /** What the nodes really enforce of one budget, share by share. */
  ghost function RealRates(w: World, budget: Id, direction: Direction): map<Id, Rate>
    requires SharesOk(w)
  {
    map id | id in w.store.shares ::
      if w.store.shares[id].budget == budget then InDirection(Enforcing(w, id), direction) else BLOCKED
  }

  /** The nodes together stay within the budget. */
  ghost predicate NodesFit(w: World, budget: Id)
    requires SharesOk(w) && budget in w.store.budgets
  {
    && TableFits(w.store.budgets[budget].desired.upload, RealRates(w, budget, Upload))
    && TableFits(w.store.budgets[budget].desired.download, RealRates(w, budget, Download))
  }

  lemma CountedCoversReal(w: World, budget: Id, direction: Direction, id: Id)
    requires SharesOk(w) && id in w.store.shares
    ensures Covers(Counted(w.store.shares[id], budget, direction), RealRates(w, budget, direction)[id])
  {
    ShareIn(w, id);
  }

  lemma DirectionBoundsTheNodes(w: World, budget: Id, direction: Direction, bound: Rate)
    requires SharesOk(w) && TableFits(bound, CountedRates(w.store.shares, budget, direction))
    ensures TableFits(bound, RealRates(w, budget, direction))
  {
    forall id | id in w.store.shares
      ensures Covers(CountedRates(w.store.shares, budget, direction)[id], RealRates(w, budget, direction)[id]) {
      CountedCoversReal(w, budget, direction, id);
    }
    TableFitsIsMonotone(bound, CountedRates(w.store.shares, budget, direction), RealRates(w, budget, direction));
  }

  /** If the outstanding rates fit, so do the rates the nodes really enforce. */
  lemma FittingSharesBoundTheNodes(w: World, budget: Id)
    requires Inv(w) && budget in w.store.budgets && SharesFit(w.store.budgets[budget].desired, w.store.shares, budget)
    ensures NodesFit(w, budget)
  {
    DirectionBoundsTheNodes(w, budget, Upload, w.store.budgets[budget].desired.upload);
    DirectionBoundsTheNodes(w, budget, Download, w.store.budgets[budget].desired.download);
  }

  /** One share table below another, row by row and in the same budgets. */
  predicate RowBelow(low: Share, high: Share, budget: Id)
  {
    (low.budget == budget <==> high.budget == budget)
      && (low.budget == budget ==> CoversPair(high.outstanding, low.outstanding))
  }

  predicate Below(low: map<Id, Share>, high: map<Id, Share>, budget: Id)
  {
    low.Keys == high.Keys && forall id :: id in low ==> RowBelow(low[id], high[id], budget)
  }

  lemma LowerSharesFit(bound: Pair, low: map<Id, Share>, high: map<Id, Share>, budget: Id)
    requires Below(low, high, budget) && SharesFit(bound, high, budget)
    ensures SharesFit(bound, low, budget)
  {
    TableFitsIsMonotone(bound.upload, CountedRates(high, budget, Upload), CountedRates(low, budget, Upload));
    TableFitsIsMonotone(bound.download, CountedRates(high, budget, Download), CountedRates(low, budget, Download));
  }

  lemma HigherBoundFits(low: Rate, high: Rate, rates: map<Id, Rate>)
    requires Covers(high, low) && Valid(low) && Valid(high) && TableFits(low, rates)
    ensures TableFits(high, rates)
  {
    if low.mode.Blocked? && high.mode.Blocked? {
    } else if low.mode.Blocked? && !high.mode.Unlimited? {
      MapSumNonNegative(rates, BitsOf);
    }
  }

  /** A move that is no request never widens a share. */
  lemma MoveShrinks(before: Share, after: Share, history: seq<Pair>, enforced: nat, budget: Id)
    requires Covered(before, history, enforced) && Move(before, after, enforced, false)
    ensures RowBelow(after, before, budget)
  {
    assert CoversPair(before.outstanding, history[before.revision]);
  }

  lemma OthersOnlyShrink(w: World, t: State, requested: set<Id>, id: Id, budget: Id)
    requires SharesOk(w) && Legal(w, t, requested) && id in w.store.shares && id !in requested
    ensures RowBelow(t.shares[id], w.store.shares[id], budget)
  {
    ShareIn(w, id);
    MoveShrinks(w.store.shares[id], t.shares[id], w.issued[id], w.enforced[id], budget);
  }

  /** Without a request no share of any budget grows. */
  lemma UnrequestedIsBelow(w: World, t: State, budget: Id)
    requires SharesOk(w) && Legal(w, t, {})
    ensures Below(t.shares, w.store.shares, budget)
  {
    assert t.shares.Keys == w.store.shares.Keys;
    forall id | id in t.shares ensures RowBelow(t.shares[id], w.store.shares[id], budget) {
      OthersOnlyShrink(w, t, {}, id, budget);
    }
  }

  /** A new row that counts nothing does not change the fit. */
  lemma SilentRow(bound: Rate, rates: map<Id, Rate>, id: Id)
    requires id !in rates
    ensures TableFits(bound, rates[id := BLOCKED]) <==> TableFits(bound, rates)
  {
    MapSumWrite(rates, id, BLOCKED, UnlimitedOf);
    MapSumWrite(rates, id, BLOCKED, LimitedOf);
    MapSumWrite(rates, id, BLOCKED, BitsOf);
    MapSumWrite(rates, id, BLOCKED, BurstOf);
  }

  lemma SilentShare(bound: Pair, shares: map<Id, Share>, id: Id, share: Share, budget: Id)
    requires id !in shares && (share.budget == budget ==> share.outstanding == ZERO)
    ensures SharesFit(bound, shares[id := share], budget) <==> SharesFit(bound, shares, budget)
  {
    forall direction: Direction
      ensures CountedRates(shares[id := share], budget, direction) ==
      CountedRates(shares, budget, direction)[id := BLOCKED] {
    }
    SilentRow(bound.upload, CountedRates(shares, budget, Upload), id);
    SilentRow(bound.download, CountedRates(shares, budget, Download), id);
  }

  /** A request either leaves its budget's outstanding rates as they were, or passed the budget check. */
  lemma RequestWasChecked(s: State, request: RateRequest, now: int)
    requires RequestRateShare(s, request, now).Ok? && request.operation !in s.operations
    ensures var before, after := ShareBefore(s, request), ShareAfter(s, request);
      && request.budget in s.budgets
      && (after.outstanding == before.outstanding
        || SharesFit(s.budgets[request.budget].desired, s.shares[request.grant := after], request.budget))
  {
  }

  lemma RequestKeepsFit(s: State, request: RateRequest, budget: Id, t: State)
    requires t.shares == s.shares[request.grant := ShareAfter(s, request)] && budget in s.budgets
    requires request.grant in s.shares ==> s.shares[request.grant].budget == request.budget
    requires ShareAfter(s, request).outstanding == ShareBefore(s, request).outstanding
      || (request.budget in s.budgets && SharesFit(s.budgets[request.budget].desired, t.shares, request.budget))
    requires SharesFit(s.budgets[budget].desired, s.shares, budget)
    ensures SharesFit(s.budgets[budget].desired, t.shares, budget)
  {
    var before, after := ShareBefore(s, request), ShareAfter(s, request);
    if request.budget != budget || after.outstanding == before.outstanding {
      if request.grant in s.shares {
        forall direction: Direction
          ensures CountedRates(t.shares, budget, direction) == CountedRates(s.shares, budget, direction) {
        }
      } else {
        SilentShare(s.budgets[budget].desired, s.shares, request.grant, after, budget);
      }
    }
  }

  /** While a budget does not fit, no request in it raises anything. */
  lemma UnfitRefusesRaises(s: State, request: RateRequest, t: State)
    requires t.shares == s.shares[request.grant := ShareAfter(s, request)] && request.budget in s.budgets
    requires request.grant in s.shares ==>
      s.shares[request.grant].budget == request.budget && ValidPair(s.shares[request.grant].outstanding)
    requires ValidPair(request.desired)
    requires SharesFit(s.budgets[request.budget].desired, t.shares, request.budget)
    ensures SharesFit(s.budgets[request.budget].desired, s.shares, request.budget)
  {
    var before, after := ShareBefore(s, request), ShareAfter(s, request);
    var desired := s.budgets[request.budget].desired;
    EnvelopeCovers(before.outstanding, request.desired);
    if request.grant in s.shares {
      LowerSharesFit(desired, s.shares, t.shares, request.budget);
    } else {
      var idle := after.(outstanding := ZERO);
      LowerSharesFit(desired, s.shares[request.grant := idle], t.shares, request.budget);
      SilentShare(desired, s.shares, request.grant, idle, request.budget);
    }
  }

  /** Raising or keeping the bound, every event of every kind keeps a fitting budget fitting. */
  lemma FitSurvives(w: World, e: Event, budget: Id)
    requires Inv(w) && Honest(w, e) && budget in w.store.budgets
      && SharesFit(w.store.budgets[budget].desired, w.store.shares, budget)
    ensures budget in Next(w, e).store.budgets
    ensures CoversPair(Next(w, e).store.budgets[budget].desired, w.store.budgets[budget].desired) ==>
      SharesFit(Next(w, e).store.budgets[budget].desired, Next(w, e).store.shares, budget)
  {
    if !e.NodeApply? {
      EventIsSound(w, e);
      var t, bound := StoreAfter(w.store, e), w.store.budgets[budget].desired;
      SharesStillFit(w, e, budget);
      if CoversPair(t.budgets[budget].desired, bound) {
        HigherBoundFits(bound.upload, t.budgets[budget].desired.upload, CountedRates(t.shares, budget, Upload));
        HigherBoundFits(bound.download, t.budgets[budget].desired.download, CountedRates(t.shares, budget, Download));
      }
    }
  }

  /** Under the old bound the moved shares still fit. */
  lemma SharesStillFit(w: World, e: Event, budget: Id)
    requires Inv(w) && Honest(w, e) && !e.NodeApply? && budget in w.store.budgets
      && SharesFit(w.store.budgets[budget].desired, w.store.shares, budget)
    ensures SharesFit(w.store.budgets[budget].desired, StoreAfter(w.store, e).shares, budget)
  {
    EventIsSound(w, e);
    if e.OfRates? && e.rate.Request? {
      RequestStillFits(w, e.rate.request, e.rate.now, budget);
    } else {
      UnrequestedIsBelow(w, StoreAfter(w.store, e), budget);
      LowerSharesFit(w.store.budgets[budget].desired, StoreAfter(w.store, e).shares, w.store.shares, budget);
    }
  }

  lemma RequestStillFits(w: World, request: RateRequest, now: int, budget: Id)
    requires SharesOk(w) && budget in w.store.budgets
      && SharesFit(w.store.budgets[budget].desired, w.store.shares, budget)
    ensures SharesFit(w.store.budgets[budget].desired, AfterRate(w.store, Request(request, now)).shares, budget)
  {
    var r := RequestRateShare(w.store, request, now);
    if r.Ok? && request.operation !in w.store.operations {
      RequestShape(w.store, request, now);
      RequestWasChecked(w.store, request, now);
      RequestKeepsFit(w.store, request, budget, r.value.0);
    }
  }

  /** No share of the budget became wider, and new ones are idle. */
  predicate NoneRaised(before: map<Id, Share>, after: map<Id, Share>, budget: Id)
  {
    forall id :: id in after && after[id].budget == budget ==> NotRaised(before, after[id], id, budget)
  }

  predicate NotRaised(before: map<Id, Share>, share: Share, id: Id, budget: Id)
  {
    if id in before then before[id].budget == budget && CoversPair(before[id].outstanding, share.outstanding)
      else CoversPair(ZERO, share.outstanding)
  }

  lemma UnfitRequestRaisesNothing(s: State, request: RateRequest, t: State, budget: Id)
    requires t.shares == s.shares[request.grant := ShareAfter(s, request)] && budget in s.budgets
      && request.budget in s.budgets
    requires request.grant in s.shares ==>
      s.shares[request.grant].budget == request.budget && ValidPair(s.shares[request.grant].outstanding)
    requires ValidPair(request.desired)
    requires ShareAfter(s, request).outstanding == ShareBefore(s, request).outstanding
      || SharesFit(s.budgets[request.budget].desired, t.shares, request.budget)
    requires !SharesFit(s.budgets[budget].desired, s.shares, budget)
    ensures NoneRaised(s.shares, t.shares, budget)
  {
    if request.budget == budget && ShareAfter(s, request).outstanding != ShareBefore(s, request).outstanding {
      UnfitRefusesRaises(s, request, t);
    }
  }

  lemma NewRequestWhileUnfit(w: World, request: RateRequest, now: int, t: State, budget: Id)
    requires SharesOk(w) && budget in w.store.budgets
      && !SharesFit(w.store.budgets[budget].desired, w.store.shares, budget)
    requires request.operation !in w.store.operations && RequestRateShare(w.store, request, now).Ok?
      && RequestRateShare(w.store, request, now).value.0 == t
    ensures NoneRaised(w.store.shares, t.shares, budget)
  {
    RequestShape(w.store, request, now);
    RequestWasChecked(w.store, request, now);
    if request.grant in w.store.shares {
      ShareIn(w, request.grant);
    }
    UnfitRequestRaisesNothing(w.store, request, t, budget);
  }

  lemma RequestOutcome(s: State, request: RateRequest, now: int)
    ensures var r, t := RequestRateShare(s, request, now), AfterRate(s, Request(request, now));
      t == s || (r.Ok? && request.operation !in s.operations && r.value.0 == t)
  {
  }

  lemma SameIsNotRaised(shares: map<Id, Share>, budget: Id)
    ensures NoneRaised(shares, shares, budget)
  {
  }

  lemma RequestWhileUnfit(w: World, request: RateRequest, now: int, budget: Id)
    requires SharesOk(w) && budget in w.store.budgets
      && !SharesFit(w.store.budgets[budget].desired, w.store.shares, budget)
    ensures NoneRaised(w.store.shares, AfterRate(w.store, Request(request, now)).shares, budget)
  {
    var t := AfterRate(w.store, Request(request, now));
    RequestOutcome(w.store, request, now);
    if t == w.store {
      SameIsNotRaised(t.shares, budget);
    } else {
      NewRequestWhileUnfit(w, request, now, t, budget);
    }
  }

  /** After a budget was lowered below what is outstanding, nothing is raised until it fits again. */
  lemma NothingIsRaisedWhileUnfit(w: World, e: Event, budget: Id)
    requires Inv(w) && Honest(w, e) && budget in w.store.budgets
      && !SharesFit(w.store.budgets[budget].desired, w.store.shares, budget)
    ensures NoneRaised(w.store.shares, Next(w, e).store.shares, budget)
  {
    if e.OfRates? && e.rate.Request? {
      RequestWhileUnfit(w, e.rate.request, e.rate.now, budget);
    } else if !e.NodeApply? {
      EventIsSound(w, e);
      UnrequestedIsBelow(w, StoreAfter(w.store, e), budget);
    }
  }

  /** Outside requests, a budget that does not exist yet has no shares and fits. */
  lemma NewBudgetFits(w: World, e: Event, budget: Id)
    requires Inv(w) && Honest(w, e) && budget !in w.store.budgets && budget in Next(w, e).store.budgets
    ensures SharesFit(Next(w, e).store.budgets[budget].desired, Next(w, e).store.shares, budget)
  {
    EventIsSound(w, e);
    var t := StoreAfter(w.store, e);
    if e.OfRates? && e.rate.Request? {
      RequestCreatesNoBudget(w.store, e.rate.request, e.rate.now);
    } else {
      UnrequestedIsBelow(w, t, budget);
      forall id | id in t.shares ensures t.shares[id].budget != budget {
        ShareIn(w, id);
      }
      EmptyBudgetFits(t.budgets[budget].desired, t.shares, budget);
    }
  }

  lemma RequestCreatesNoBudget(s: State, request: RateRequest, now: int)
    ensures AfterRate(s, Request(request, now)).budgets == s.budgets
  {
  }

  lemma EmptyBudgetFits(bound: Pair, shares: map<Id, Share>, budget: Id)
    requires forall id :: id in shares ==> shares[id].budget != budget
    ensures SharesFit(bound, shares, budget)
  {
    forall direction: Direction
      ensures MapSum(CountedRates(shares, budget, direction), UnlimitedOf) == 0
        && MapSum(CountedRates(shares, budget, direction), LimitedOf) == 0
      ensures MapSum(CountedRates(shares, budget, direction), BitsOf) == 0
        && MapSum(CountedRates(shares, budget, direction), BurstOf) == 0
    {
      MapSumAllZero(CountedRates(shares, budget, direction), UnlimitedOf);
      MapSumAllZero(CountedRates(shares, budget, direction), LimitedOf);
      MapSumAllZero(CountedRates(shares, budget, direction), BitsOf);
      MapSumAllZero(CountedRates(shares, budget, direction), BurstOf);
    }
  }

  /** The budget's bound never goes down along the run. */
  ghost predicate NeverLowered(w: World, events: seq<Event>, budget: Id)
    decreases |events|
  {
    events != [] ==>
      && (budget in w.store.budgets && budget in Next(w, events[0]).store.budgets ==>
            CoversPair(Next(w, events[0]).store.budgets[budget].desired, w.store.budgets[budget].desired))
      && NeverLowered(Next(w, events[0]), events[1..], budget)
  }

  lemma {:induction false} UnloweredBudgetHolds(w: World, events: seq<Event>, budget: Id)
    requires Inv(w) && HonestRun(w, events) && NeverLowered(w, events, budget)
    requires budget in w.store.budgets ==> SharesFit(w.store.budgets[budget].desired, w.store.shares, budget)
    ensures Inv(After(w, events))
    ensures budget in After(w, events).store.budgets ==>
      SharesFit(After(w, events).store.budgets[budget].desired, After(w, events).store.shares, budget)
        && NodesFit(After(w, events), budget)
    decreases |events|
  {
    if events == [] {
      if budget in w.store.budgets {
        FittingSharesBoundTheNodes(w, budget);
      }
    } else {
      var e, v := events[0], Next(w, events[0]);
      EventKeepsInv(w, e);
      if budget in w.store.budgets {
        FitSurvives(w, e, budget);
      } else if budget in v.store.budgets {
        NewBudgetFits(w, e, budget);
      }
      UnloweredBudgetHolds(v, events[1..], budget);
    }
  }

  /** In every honest run from the empty store, whatever the interleaving of
      requests, confirmations, acknowledgements, stops and late applies, the rates
      the nodes really enforce stay within a budget that was never lowered. */
  lemma NodesNeverExceedAnUnloweredBudget(events: seq<Event>, budget: Id)
    requires HonestRun(START, events) && NeverLowered(START, events, budget)
    ensures Inv(After(START, events))
    ensures budget in After(START, events).store.budgets ==> NodesFit(After(START, events), budget)
  {
    StartIsSafe();
    UnloweredBudgetHolds(START, events, budget);
  }

  ghost predicate UnfitThroughout(w: World, events: seq<Event>, budget: Id)
    decreases |events|
  {
    && budget in w.store.budgets && !SharesFit(w.store.budgets[budget].desired, w.store.shares, budget)
    && (events != [] ==> UnfitThroughout(Next(w, events[0]), events[1..], budget))
  }

  lemma SharesNeverVanish(w: World, e: Event)
    requires Inv(w) && Honest(w, e)
    ensures w.store.shares.Keys <= Next(w, e).store.shares.Keys
  {
    if !e.NodeApply? {
      EventIsSound(w, e);
    }
  }

  /** Along a stretch of a run in which the budget never fits, its shares only shrink. */
  lemma {:induction false} UnfitStretchOnlyShrinks(w: World, events: seq<Event>, budget: Id)
    requires Inv(w) && HonestRun(w, events) && UnfitThroughout(w, events, budget)
    ensures NoneRaised(w.store.shares, After(w, events).store.shares, budget)
    decreases |events|
  {
    if events != [] {
      var v := Next(w, events[0]);
      EventKeepsInv(w, events[0]);
      NothingIsRaisedWhileUnfit(w, events[0], budget);
      SharesNeverVanish(w, events[0]);
      UnfitStretchOnlyShrinks(v, events[1..], budget);
      NotRaisedChains(w.store.shares, v.store.shares, After(v, events[1..]).store.shares, budget);
    }
  }

  lemma NotRaisedChains(a: map<Id, Share>, b: map<Id, Share>, c: map<Id, Share>, budget: Id)
    requires NoneRaised(a, b, budget) && NoneRaised(b, c, budget) && a.Keys <= b.Keys
    ensures NoneRaised(a, c, budget)
  {
    forall id | id in c && c[id].budget == budget ensures NotRaised(a, c[id], id, budget) {
      assert NotRaised(b, c[id], id, budget);
      if id in b {
        assert NotRaised(a, b[id], id, budget);
        CoversIsTransitive(if id in a then a[id].outstanding else ZERO, b[id].outstanding, c[id].outstanding);
      }
    }
  }

  // ----- terms -----

  /** A share of a managed client outside its current term is silent: nothing is
      outstanding, its node enforces nothing, and nothing it may still apply forwards. */
  lemma OutsideCurrentTermIsSilent(w: World, id: Id)
    requires Inv(w) && id in w.store.shares && id in w.store.grants && w.store.grants[id].client in w.store.clients
    requires w.store.clients[w.store.grants[id].client].current != Some(w.store.grants[id].term)
    ensures w.store.shares[id].outstanding == ZERO && Enforcing(w, id) == ZERO
    ensures forall r :: w.enforced[id] <= r < |w.issued[id]| ==> w.issued[id][r] == ZERO
  {
    assert CurrentOk(w.store, id);
    ShareIn(w, id);
    IdleDesiresNothing(w.store.shares[id], w.issued[id], w.enforced[id]);
  }

  /** A term that took over did so from a closed predecessor, all of whose shares are silent. */
  lemma SuccessorFollowsASilentPredecessor(w: World, term: Id, id: Id)
    requires Inv(w) && term in w.store.terms && w.store.terms[term].state == Active
      && w.store.terms[term].predecessor.Some?
    requires id in w.store.shares && id in w.store.grants
    requires w.store.grants[id].client == w.store.terms[term].client
      && w.store.grants[id].term == w.store.terms[term].predecessor.value
    ensures w.store.shares[id].outstanding == ZERO && Enforcing(w, id) == ZERO
    ensures forall r :: w.enforced[id] <= r < |w.issued[id]| ==> w.issued[id][r] == ZERO
  {
    assert TermOk(w.store, term) && TermOk(w.store, w.store.terms[term].predecessor.value);
    assert ClientOk(w.store, w.store.terms[term].client);
    OutsideCurrentTermIsSilent(w, id);
  }

  /** A term waiting behind its predecessor, in the tables it was asked for in. */
  predicate Waits(s: State, t: State, client: Id, newTerm: Id, pending: Term)
  {
    && client in s.clients && s.clients[client].panel && s.clients[client].pending.None?
      && s.clients[client].current.Some?
    && var owner, previous := s.clients[client], s.clients[client].current.value;
      && previous in s.terms && s.terms[previous].client == client && s.terms[previous].state == Active
        && newTerm != previous
      && pending.client == client && pending.state == Pending && pending.predecessor == Some(previous)
      && t == s.(clients := s.clients[client := owner.(pending := Some(newTerm), revision := owner.revision + 1)],
                 terms := s.terms[previous := s.terms[previous].(state := Draining)][newTerm := pending])
  }

  lemma TransitionWaits(s: State, call: LifecycleCall, newTerm: Id, now: int)
    requires newTerm !in s.terms && call.Transition? && ApplyTransition(s, call, newTerm, now).Ok?
      && ApplyTransition(s, call, newTerm, now).value.1.pendingDrain
    ensures Waits(s, ApplyTransition(s, call, newTerm, now).value.0, call.client, newTerm,
      ApplyTransition(s, call, newTerm, now).value.1.term)
    ensures s.clients[call.client].revision == call.expectedRevision
      && s.clients[call.client].generation == call.expectedGeneration
  {
  }

  lemma WaitingIsCancelled(s: State, t: State, client: Id, newTerm: Id, pending: Term)
    requires Waits(s, t, client, newTerm, pending) && newTerm !in s.terms && s.clients[client].revision + 1 < MAX_INT64
    ensures var r := ApplyCancel(t,
      Cancel(client, newTerm, s.clients[client].revision + 1, s.clients[client].generation));
      && r.Ok? && r.value.0 == s.(terms := s.terms[newTerm := pending.(state := Closed)],
                                  clients := s.clients[client :=
                                    s.clients[client].(revision := s.clients[client].revision + 2)])
  {
    var owner, previous := s.clients[client], s.clients[client].current.value;
    assert t.terms[previous := s.terms[previous]] == s.terms[newTerm := pending];
    assert s.terms[newTerm := pending][newTerm := pending.(state := Closed)] ==
      s.terms[newTerm := pending.(state := Closed)];
    assert t.terms[newTerm := pending.(state := Closed)][previous := s.terms[previous]] ==
      s.terms[newTerm := pending.(state := Closed)];
    assert t.clients[client := owner.(revision := owner.revision + 2)] ==
      s.clients[client := owner.(revision := owner.revision + 2)];
  }

  /** Cancelling a transition undoes it: only the client's revision and the closed
      row of the term that never started tell that it was asked for. */
  lemma CancelUndoesTransition(s: State, call: LifecycleCall, newTerm: Id, now: int)
    requires newTerm !in s.terms && call.Transition? && call.expectedRevision + 1 < MAX_INT64
    requires ApplyTransition(s, call, newTerm, now).Ok? && ApplyTransition(s, call, newTerm, now).value.1.pendingDrain
    ensures var (t, given) := ApplyTransition(s, call, newTerm, now).value;
      var r := ApplyCancel(t, Cancel(call.client, newTerm, call.expectedRevision + 1, call.expectedGeneration));
      && r.Ok? && r.value.0 == s.(terms := s.terms[newTerm := given.term.(state := Closed)],
                                  clients := s.clients[call.client :=
                                    s.clients[call.client].(revision := s.clients[call.client].revision + 2)])
  {
    TransitionWaits(s, call, newTerm, now);
    WaitingIsCancelled(s, ApplyTransition(s, call, newTerm, now).value.0, call.client, newTerm,
      ApplyTransition(s, call, newTerm, now).value.1.term);
  }

  /** The tables with a client's first term started: current, active, and bounding the pool. */
  predicate Starts(s: State, t: State, client: Id, newTerm: Id, term: Term)
  {
    && client in s.clients && client in t.clients && client in t.budgets
    && t == s.(terms := s.terms[newTerm := term], clients := s.clients[client := t.clients[client]],
      budgets := s.budgets[client := t.budgets[client]])
    && term.state == Active && term.predecessor.None? && t.clients[client].current == Some(newTerm)
    && t.budgets[client].term == newTerm && t.budgets[client].desired == term.rates
  }

  lemma StartFirstStarts(s: State, call: LifecycleCall, client: Client, number: int, newTerm: Id, now: int)
    requires call.Transition? && call.client in s.clients && StartFirst(s, call, client, number, newTerm, now).Ok?
    ensures var (t, given) := StartFirst(s, call, client, number, newTerm, now).value;
      && Starts(s, t, call.client, newTerm, given.term) && !given.pendingDrain && given.term.rates == call.spec.rates
      && given.term.started == now && (given.term.expires == 0 || now < given.term.expires || call.kind == TrafficReset)
  {
    var started := StartTerm(NewTerm(call, client, number), now).value;
    var owner := client.(current := Some(newTerm), revision := client.revision + 1);
    var s1 := s.(clients := s.clients[call.client := owner], terms := s.terms[newTerm := started]);
    PoolShape(s1, call.client, newTerm, started);
    PoolTerm(s1, call.client, newTerm, started);
    PoolStarts(s, s1, StartFirst(s, call, client, number, newTerm, now).value.0, call.client, newTerm, started);
  }

  lemma PoolStarts(s: State, s1: State, t: State, client: Id, newTerm: Id, term: Term)
    requires client in s.clients && client in s1.clients
      && s1 == s.(clients := s.clients[client := s1.clients[client]], terms := s.terms[newTerm := term])
    requires s1.clients[client].current == Some(newTerm) && term.state == Active && term.predecessor.None?
    requires PoolWritten(s1, t, client) && t.budgets[client].term == newTerm && t.budgets[client].desired == term.rates
    ensures Starts(s, t, client, newTerm, term)
  {
  }

  lemma ActivationIsFirst(s: State, call: LifecycleCall, newTerm: Id, now: int)
    requires call.Transition? && call.kind == Activation && ApplyTransition(s, call, newTerm, now).Ok?
    ensures call.client in s.clients && s.clients[call.client].current.None?
    ensures ApplyTransition(s, call, newTerm, now) ==
      StartFirst(s, call, s.clients[call.client], NumberOf(s.terms, call.client) + 1, newTerm, now)
  {
  }

  /** A client's first term starts at once and is not expired; nothing else moves. */
  lemma FirstTermStarts(s: State, call: LifecycleCall, newTerm: Id, now: int)
    requires call.Transition? && call.kind == Activation && ApplyTransition(s, call, newTerm, now).Ok?
    ensures call.client in s.clients && s.clients[call.client].current.None?
    ensures var (t, given) := ApplyTransition(s, call, newTerm, now).value;
      && Starts(s, t, call.client, newTerm, given.term) && !given.pendingDrain && given.term.rates == call.spec.rates
      && given.term.started == now && (given.term.expires == 0 || now < given.term.expires)
  {
    ActivationIsFirst(s, call, newTerm, now);
    StartFirstStarts(s, call, s.clients[call.client], NumberOf(s.terms, call.client) + 1, newTerm, now);
  }

  /** Terms of one client have different numbers, a successor's above its predecessor's. */
  predicate Numbered(terms: map<Id, Term>)
  {
    && (forall a, b :: a in terms && b in terms && a != b && terms[a].client == terms[b].client ==>
      terms[a].number != terms[b].number)
    && (forall a :: a in terms ==> 1 <= terms[a].number <= MAX_INT64)
    && forall a :: a in terms && terms[a].predecessor.Some? ==>
         terms[a].predecessor.value in terms && terms[terms[a].predecessor.value].number < terms[a].number
  }

  /** The same terms under the same numbers, whatever else moved. */
  predicate SameNumbers(s: map<Id, Term>, t: map<Id, Term>)
  {
    && t.Keys == s.Keys
    && forall id :: id in s ==>
      t[id].client == s[id].client && t[id].number == s[id].number && t[id].predecessor == s[id].predecessor
  }

  lemma SameNumbersStay(s: map<Id, Term>, t: map<Id, Term>)
    requires Numbered(s) && SameNumbers(s, t)
    ensures Numbered(t)
  {
  }

  lemma NewNumberIsHigher(s: map<Id, Term>, mid: map<Id, Term>, newTerm: Id, term: Term)
    requires Numbered(s) && SameNumbers(s, mid) && newTerm !in s
      && (forall id :: id in s && s[id].client == term.client ==> s[id].number < term.number)
    requires term.predecessor.Some? ==> term.predecessor.value in s && s[term.predecessor.value].client == term.client
    requires 1 <= term.number <= MAX_INT64
    ensures Numbered(mid[newTerm := term])
  {
  }

  /** A new term is numbered after all terms of its client. */
  lemma TransitionIsNumberedLast(s: State, call: LifecycleCall, newTerm: Id, now: int)
    requires call.Transition? && ApplyTransition(s, call, newTerm, now).Ok? && newTerm !in s.terms
    ensures var (t, given) := ApplyTransition(s, call, newTerm, now).value;
      && newTerm in t.terms && t.terms[newTerm] == given.term && given.term.client == call.client
        && 1 <= given.term.number
      && (Numbered(s.terms) ==> given.term.number <= MAX_INT64)
      && forall id :: id in s.terms && s.terms[id].client == call.client ==> s.terms[id].number < given.term.number
  {
    TransitionHasShape(s, call, newTerm, now);
    NumberIsLast(s.terms, call.client);
  }

  lemma TransitionKeepsNumbers(s: State, call: LifecycleCall, newTerm: Id, now: int, t: State)
    requires Numbered(s.terms) && call.Transition? && newTerm !in s.terms
    requires ApplyTransition(s, call, newTerm, now).Ok? && t == ApplyTransition(s, call, newTerm, now).value.0
    ensures Numbered(t.terms)
  {
    TransitionHasShape(s, call, newTerm, now);
    TransitionIsNumberedLast(s, call, newTerm, now);
    var term, current := t.terms[newTerm], s.clients[call.client].current;
    if current.None? {
      NewNumberIsHigher(s.terms, s.terms, newTerm, term);
    } else {
      TransitionWaits(s, call, newTerm, now);
      NewNumberIsHigher(s.terms, s.terms[current.value := s.terms[current.value].(state := Draining)], newTerm, term);
    }
  }

  lemma CompleteKeepsNumbers(s: State, call: LifecycleCall, now: int)
    requires call.Complete? && ApplyComplete(s, call, now).Ok?
    ensures SameNumbers(s.terms, ApplyComplete(s, call, now).value.0.terms)
  {
  }

  lemma CancelKeepsNumbers(s: State, call: LifecycleCall)
    requires call.Cancel? && ApplyCancel(s, call).Ok?
    ensures SameNumbers(s.terms, ApplyCancel(s, call).value.0.terms)
  {
  }

  lemma CallKeepsNumbers(s: State, operation: Id, call: LifecycleCall, newTerm: Id, now: int)
    requires Numbered(s.terms) && newTerm !in s.terms && Lifecycle(s, operation, call, newTerm, now).Ok?
    ensures Numbered(Lifecycle(s, operation, call, newTerm, now).value.0.terms)
  {
    if operation !in s.operations {
      match call
      case Transition(_, _, _, _, _, _, _) =>
        TransitionKeepsNumbers(s, call, newTerm, now, ApplyTransition(s, call, newTerm, now).value.0);
      case Complete(_, _, _, _, _) =>
        CompleteKeepsNumbers(s, call, now);
        SameNumbersStay(s.terms, ApplyComplete(s, call, now).value.0.terms);
      case Cancel(_, _, _, _) =>
        CancelKeepsNumbers(s, call);
        SameNumbersStay(s.terms, ApplyCancel(s, call).value.0.terms);
    }
  }

  lemma ClientEventKeepsNumbers(s: State, e: ClientEvent)
    requires Numbered(s.terms) && FreshIds(s, e)
    ensures Numbered(AfterClient(s, e).terms)
  {
    if e.Call? && Lifecycle(s, e.operation, e.call, e.newTerm, e.now).Ok? {
      CallKeepsNumbers(s, e.operation, e.call, e.newTerm, e.now);
    }
  }

  lemma EventKeepsNumbers(w: World, e: Event)
    requires Numbered(w.store.terms) && Honest(w, e)
    ensures Numbered(Next(w, e).store.terms)
  {
    match e
    case OfRates(rate) => RateEventKeepsTerms(w.store, rate);
    case OfReport(report) => ReportEventKeepsTerms(w.store, report);
    case OfClient(client) => ClientEventKeepsNumbers(w.store, client);
    case NodeApply(_, _) =>
  }

  /** In every honest run a client's terms are numbered apart, each after its predecessor. */
  lemma {:induction false} RunKeepsNumbers(w: World, events: seq<Event>)
    requires Numbered(w.store.terms) && HonestRun(w, events)
    ensures Numbered(After(w, events).store.terms)
    decreases |events|
  {
    if events != [] {
      EventKeepsNumbers(w, events[0]);
      RunKeepsNumbers(Next(w, events[0]), events[1..]);
    }
  }

  /** One operation id runs one call: asking again, at any time and under any new
      term id, returns what was answered and changes nothing. */
  lemma LifecycleReplays(s: State, operation: Id, call: LifecycleCall, newTerm: Id, now: int, otherTerm: Id, later: int)
    requires Lifecycle(s, operation, call, newTerm, now).Ok?
    ensures var (t, result) := Lifecycle(s, operation, call, newTerm, now).value;
      Lifecycle(t, operation, call, otherTerm, later) == Ok((t, result))
  {
    if operation !in s.operations {
      CallLeavesFence(s, call, newTerm, now);
    }
  }

  lemma CallLeavesFence(s: State, call: LifecycleCall, newTerm: Id, now: int)
    requires Apply(s, call, newTerm, now).Ok?
    ensures Apply(s, call, newTerm, now).value.0.fenced == s.fenced
  {
    match call
    case Transition(_, _, _, _, _, _, _) => TransitionLeavesShares(s, call, newTerm, now);
    case Complete(_, _, _, _, _) => CompleteLeavesShares(s, call, now);
    case Cancel(_, _, _, _) =>
  }

  lemma RequestReplays(s: State, request: RateRequest, now: int, later: int)
    requires RequestRateShare(s, request, now).Ok?
    ensures var (t, share) := RequestRateShare(s, request, now).value;
      RequestRateShare(t, request, later) == Ok((t, share))
  {
  }

  /** Completing it hands over: the waiting term is current and active, its
      predecessor closed, the client's pool bounded by the new term's rates, and
      nothing else moved. */
  lemma CompleteHandsOver(s: State, call: LifecycleCall, now: int)
    requires PointersAgree(s) && call.Complete? && ApplyComplete(s, call, now).Ok?
    ensures call.client in s.clients && s.clients[call.client].current.Some? && call.pendingTerm in s.terms
    ensures var t, previous, term := ApplyComplete(s, call, now).value.0, s.clients[call.client].current.value,
      call.pendingTerm;
      && call.client in t.clients && t.clients[call.client].current == Some(term)
        && t.clients[call.client].pending.None?
      && previous in t.terms && t.terms[previous].state == Closed && term in t.terms && t.terms[term].state == Active
        && t.terms[term].predecessor == Some(previous)
      && call.client in t.budgets && t.budgets[call.client].term == term
        && t.budgets[call.client].desired == s.terms[term].rates
      && (forall id :: id in s.terms && id != previous && id != term ==> id in t.terms && t.terms[id] == s.terms[id])
      && (forall id :: id in s.clients && id != call.client ==> id in t.clients && t.clients[id] == s.clients[id])
      && t.shares == s.shares && t.grants == s.grants && t.stops == s.stops
  {
    assert ClientOk(s, call.client);
  }

  /** The lifecycle transactions leave closed terms alone. */
  lemma TransitionKeepsClosed(s: State, call: LifecycleCall, newTerm: Id, now: int, term: Id)
    requires PointersAgree(s) && term in s.terms && s.terms[term].state == Closed && newTerm !in s.terms
    requires call.Transition? && ApplyTransition(s, call, newTerm, now).Ok?
    ensures var t := ApplyTransition(s, call, newTerm, now).value.0; term in t.terms && t.terms[term] == s.terms[term]
  {
    assert ClientOk(s, call.client);
    TransitionHasShape(s, call, newTerm, now);
  }

  lemma CompleteKeepsClosed(s: State, call: LifecycleCall, now: int, term: Id)
    requires PointersAgree(s) && term in s.terms && s.terms[term].state == Closed
    requires call.Complete? && ApplyComplete(s, call, now).Ok?
    ensures var t := ApplyComplete(s, call, now).value.0; term in t.terms && t.terms[term] == s.terms[term]
  {
    assert ClientOk(s, call.client);
    CompleteHasShape(s, call, now);
  }

  lemma CancelKeepsClosed(s: State, call: LifecycleCall, term: Id)
    requires term in s.terms && s.terms[term].state == Closed && call.Cancel? && ApplyCancel(s, call).Ok?
    ensures var t := ApplyCancel(s, call).value.0; term in t.terms && t.terms[term] == s.terms[term]
  {
  }

  lemma CallKeepsClosed(s: State, operation: Id, call: LifecycleCall, newTerm: Id, now: int, term: Id)
    requires PointersAgree(s) && term in s.terms && s.terms[term].state == Closed && newTerm !in s.terms
    requires Lifecycle(s, operation, call, newTerm, now).Ok?
    ensures var t := Lifecycle(s, operation, call, newTerm, now).value.0;
      term in t.terms && t.terms[term] == s.terms[term]
  {
    if operation !in s.operations {
      match call
      case Transition(_, _, _, _, _, _, _) => TransitionKeepsClosed(s, call, newTerm, now, term);
      case Complete(_, _, _, _, _) => CompleteKeepsClosed(s, call, now, term);
      case Cancel(_, _, _, _) => CancelKeepsClosed(s, call, term);
    }
  }

  lemma ClientEventKeepsClosed(s: State, e: ClientEvent, term: Id)
    requires PointersAgree(s) && FreshIds(s, e) && term in s.terms && s.terms[term].state == Closed
    ensures term in AfterClient(s, e).terms && AfterClient(s, e).terms[term] == s.terms[term]
  {
    if e.Call? && Lifecycle(s, e.operation, e.call, e.newTerm, e.now).Ok? {
      CallKeepsClosed(s, e.operation, e.call, e.newTerm, e.now, term);
    }
  }

  lemma RateEventKeepsTerms(s: State, e: RateEvent)
    ensures AfterRate(s, e).terms == s.terms
  {
  }

  lemma ReportEventKeepsTerms(s: State, e: ReportEvent)
    ensures AfterReport(s, e).terms == s.terms
  {
  }

  /** A closed term stays closed, so it never becomes current again. */
  lemma ClosedStaysClosed(w: World, e: Event, term: Id)
    requires Inv(w) && Honest(w, e) && term in w.store.terms && w.store.terms[term].state == Closed
    ensures term in Next(w, e).store.terms && Next(w, e).store.terms[term] == w.store.terms[term]
  {
    match e
    case OfRates(rate) => RateEventKeepsTerms(w.store, rate);
    case OfReport(report) => ReportEventKeepsTerms(w.store, report);
    case OfClient(client) => ClientEventKeepsClosed(w.store, client, term);
    case NodeApply(_, _) =>
  }

  /** A share is silent when nothing of it is outstanding or enforced. */
  ghost predicate Silent(w: World, id: Id)
    requires SharesOk(w) && id in w.store.shares
  {
    w.store.shares[id].outstanding == ZERO && Enforcing(w, id) == ZERO
  }

  /** The share belongs to a grant of this term, whose client is managed. */
  predicate OfTerm(s: State, id: Id, term: Id)
  {
    id in s.shares && id in s.grants && s.grants[id].term == term && s.grants[id].client in s.clients
  }

  lemma ClosedTermIsSilent(w: World, term: Id, id: Id)
    requires Inv(w) && term in w.store.terms && w.store.terms[term].state == Closed && OfTerm(w.store, id, term)
    ensures Silent(w, id)
  {
    assert ClientOk(w.store, w.store.grants[id].client);
    OutsideCurrentTermIsSilent(w, id);
  }

  /** Once its term is closed, a share is silent in every later world of every honest run. */
  lemma {:induction false} ClosedTermIsSilentForever(w: World, events: seq<Event>, term: Id, id: Id)
    requires Inv(w) && HonestRun(w, events) && term in w.store.terms && w.store.terms[term].state == Closed
    ensures Inv(After(w, events))
    ensures OfTerm(After(w, events).store, id, term) ==> Silent(After(w, events), id)
    decreases |events|
  {
    if events == [] {
      if OfTerm(w.store, id, term) {
        ClosedTermIsSilent(w, term, id);
      }
    } else {
      EventKeepsInv(w, events[0]);
      ClosedStaysClosed(w, events[0], term);
      ClosedTermIsSilentForever(Next(w, events[0]), events[1..], term, id);
    }
  }
}
