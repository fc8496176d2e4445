/** What the ledger promises over whole runs: each usage batch counts once, each
    ceiling holds, and a partial credit is the largest one admitted. */
module LedgerSafety {
  import opened Results
  import opened MapSums
  import opened Ledger
  import opened LedgerRuns

  // ----- usage batches count once, in order -----

  /** The accepted batches of one node. */
  function NodeLog(log: seq<Batch>, node: Id, installation: Id): seq<Batch>
  {
    if log == [] then []
    else
      var rest, last := NodeLog(log[..|log| - 1], node, installation), log[|log| - 1];
      if last.node == node && last.installation == installation then rest + [last] else rest
  }

  /** The readings of meters after some checkpoints, and after all accepted batches. */
  function ReadAll(meters: map<MeterKey, Meter>, cs: seq<Checkpoint>): map<MeterKey, Meter>
  {
    if cs == [] then meters
    else
      var c := cs[|cs| - 1];
      ReadAll(meters, cs[..|cs| - 1])[KeyOf(c) := Meter(c.grant, c.uploaded, c.downloaded)]
  }

  function Readings(log: seq<Batch>): map<MeterKey, Meter>
  {
    if log == [] then map[] else ReadAll(Readings(log[..|log| - 1]), log[|log| - 1].checkpoints)
  }

  /** The cursor of a node counts its accepted batches, which are numbered from one. */
  ghost predicate Contiguous(s: State, log: seq<Batch>, node: Id, installation: Id)
  {
    var own, cursor := NodeLog(log, node, installation), CursorAt(s, node, installation);
    && cursor.sequence == |own| && (forall i :: 0 <= i < |own| ==> own[i].sequence == i + 1)
    && cursor.last == if own == [] then None else Some(own[|own| - 1])
  }

  ghost predicate LogOk(w: World)
  {
    && w.store.meters == Readings(w.log)
    && forall node, installation :: Contiguous(w.store, w.log, node, installation)
  }

  lemma {:induction false} MetersReadCheckpoints(w: Work, node: Id, installation: Id, cs: seq<Checkpoint>, after: Work)
    requires InScope(w.budgets, w.grants, node, installation, cs)
      && ApplyCheckpoints(w, node, installation, cs) == Ok(after)
    ensures after.meters == ReadAll(w.meters, cs)
    decreases |cs|
  {
    if cs != [] {
      var v, u, up, down := LastAccepted(w, node, installation, cs);
      MetersReadCheckpoints(w, node, installation, cs[..|cs| - 1], v);
    }
  }

  /** Only an applied batch moves a cursor or a meter. */
  lemma {:induction false} OthersLeaveReadings(w: World, e: Event)
    requires !Applies(w.store, e)
    ensures Next(w, e).store.meters == w.store.meters && Next(w, e).store.cursors == w.store.cursors
      && Next(w, e).log == w.log
  {
    if e.CreditEvent? && ReserveClientCredit(w.store, e.credit, e.target, e.creditGuard, e.inner).Ok? {
      CreditLeavesReadings(w.store, e.credit, e.target, e.creditGuard, e.inner);
    }
  }

  lemma ReserveLeavesReadings(s: State, in': ReserveRequest, placement: Option<Id>, guard: Check)
    requires Reserve(s, in', placement, Pass, guard).Ok?
    ensures var t := Reserve(s, in', placement, Pass, guard).value.0; t.meters == s.meters && t.cursors == s.cursors
  {
  }

  lemma CreditLeavesReadings(s: State, r: CreditRequest, t: Target, guard: Check, inner: Check)
    requires ReserveClientCredit(s, r, t, guard, inner).Ok?
    ensures var after := ReserveClientCredit(s, r, t, guard, inner).value.0;
      after.meters == s.meters && after.cursors == s.cursors
  {
    if r.operation !in s.operations {
      var amount := CreditSteps(s, r, t, guard, inner);
      ReserveLeavesReadings(Claimed(s, r, Relimited(s.budgets, r.limits)), Drawn(s, r, t, amount),
        Some(t.placement), inner);
    }
  }

  lemma AppliedMovesCursor(s: State, b: Batch, guard: Check)
    requires Ingest(s, b, guard).Ok? && b.sequence > CursorAt(s, b.node, b.installation).sequence
    ensures b.sequence == CursorAt(s, b.node, b.installation).sequence + 1
    ensures var t := Ingest(s, b, guard).value.0;
      t.meters == ReadAll(s.meters, b.checkpoints)
        && t.cursors == s.cursors[(b.node, b.installation) := Cursor(b.sequence, Some(b))]
  {
    var w := BatchShape(s, b);
    MetersReadCheckpoints(Work(s.budgets, s.grants, s.meters, map[]), b.node, b.installation, b.checkpoints, w);
  }

  lemma LogGrows(s: State, t: State, log: seq<Batch>, b: Batch, node: Id, installation: Id)
    requires Contiguous(s, log, node, installation) && b.sequence == CursorAt(s, b.node, b.installation).sequence + 1
    requires t.cursors == s.cursors[(b.node, b.installation) := Cursor(b.sequence, Some(b))]
    ensures Contiguous(t, log + [b], node, installation)
  {
    assert (log + [b])[..|log + [b]| - 1] == log;
  }

  lemma {:induction false} GrownLogStays(w: World, v: World, b: Batch)
    requires LogOk(w) && b.sequence == CursorAt(w.store, b.node, b.installation).sequence + 1
    requires v.log == w.log + [b] && v.store.meters == ReadAll(w.store.meters, b.checkpoints)
    requires v.store.cursors == w.store.cursors[(b.node, b.installation) := Cursor(b.sequence, Some(b))]
    ensures LogOk(v)
  {
    assert v.log[..|v.log| - 1] == w.log;
    forall node, installation ensures Contiguous(v.store, v.log, node, installation) {
      LogGrows(w.store, v.store, w.log, b, node, installation);
    }
  }

  lemma {:induction false} AppliedGrows(w: World, e: Event)
    requires Applies(w.store, e)
    ensures var v, b := Next(w, e), e.batch;
      && b.sequence == CursorAt(w.store, b.node, b.installation).sequence + 1 && v.log == w.log + [b]
      && v.store.meters == ReadAll(w.store.meters, b.checkpoints)
      && v.store.cursors == w.store.cursors[(b.node, b.installation) := Cursor(b.sequence, Some(b))]
  {
    AppliedMovesCursor(w.store, e.batch, e.usageGuard);
  }

  lemma {:induction false} SameLogStays(w: World, v: World)
    requires LogOk(w) && v.log == w.log && v.store.cursors == w.store.cursors && v.store.meters == w.store.meters
    ensures LogOk(v)
  {
    forall node, installation ensures Contiguous(v.store, v.log, node, installation) {
      assert Contiguous(w.store, w.log, node, installation);
    }
  }

  lemma {:induction false} EventKeepsLog(w: World, e: Event)
    requires LogOk(w)
    ensures LogOk(Next(w, e))
  {
    if Applies(w.store, e) {
      AppliedGrows(w, e);
      GrownLogStays(w, Next(w, e), e.batch);
    } else {
      OthersLeaveReadings(w, e);
      SameLogStays(w, Next(w, e));
    }
  }

  /** However batches are duplicated, reordered or resent, the accepted ones of
      every node are numbered 1 to n without a gap, each applied once, and the
      meters hold exactly their last readings. */
  lemma {:induction false} AcceptedBatchesCountOnce(events: seq<Event>)
    ensures LogOk(After(events))
  {
    if events != [] {
      AcceptedBatchesCountOnce(events[..|events| - 1]);
      EventKeepsLog(After(events[..|events| - 1]), events[|events| - 1]);
    }
  }

  /** A batch that is not newer than the cursor changes nothing. */
  lemma ResentBatchChangesNothing(w: World, b: Batch, guard: Check)
    requires b.sequence <= CursorAt(w.store, b.node, b.installation).sequence
    ensures Next(w, UsageEvent(b, guard)) == w
  {
  }

  // ----- replays -----

  lemma {:induction false} DistinctCounts(ids: seq<Id>)
    ensures Distinct(ids) <==> forall id :: multiset(ids)[id] <= 1
  {
    if ids != [] {
      var init, last := ids[..|ids| - 1], ids[|ids| - 1];
      DistinctCounts(init);
      assert ids == init + [last];
      assert Distinct(ids) <==> Distinct(init) && last !in init;
      assert last in init <==> last in multiset(init);
      forall id ensures multiset(ids)[id] == multiset(init)[id] + if id == last then 1 else 0 {
      }
      if last !in init && forall id :: multiset(init)[id] <= 1 {
        assert multiset(init)[last] == 0;
      }
    }
  }

  lemma PermutedIsValid(in': ReserveRequest, again: ReserveRequest)
    requires ValidReserve(in') && SamePayload(Reservation(in'), Reservation(again))
    ensures ValidReserve(again)
  {
    DistinctCounts(in'.budgets);
    DistinctCounts(again.budgets);
    assert |multiset(in'.budgets)| == |multiset(again.budgets)|;
    forall id | id in again.budgets ensures ValidId(id) {
      assert id in multiset(again.budgets);
      assert id in in'.budgets;
    }
  }

  /** Asking again under the same operation, with the budgets in any order, returns
      the grant that was given and changes nothing. */
  lemma ReplayReturnsTheGrant(s: State, in': ReserveRequest, again: ReserveRequest, placement: Option<Id>,
      guard: Check, other: Option<Id>, later: Check)
    requires Reserve(s, in', placement, Pass, guard).Ok? && SamePayload(Reservation(in'), Reservation(again))
    ensures var (t, grant) := Reserve(s, in', placement, Pass, guard).value;
      Reserve(t, again, other, Pass, later) == Ok((t, grant))
  {
    PermutedIsValid(in', again);
  }

  // ----- the authority ceiling -----

  /** A grant of somebody else that draws on a term's own budget. */
  predicate Foreign(g: Grant, budget: Id, client: Id, term: Id)
  {
    budget in g.budgets && !(g.client == client && g.term == term)
  }

  function ForeignIssued(budget: Id, client: Id, term: Id): Grant -> int
  {
    (g: Grant) => if Foreign(g, budget, client, term) then g.issued else 0
  }

  function ForeignConsumed(budget: Id, client: Id, term: Id): Grant -> int
  {
    (g: Grant) => if Foreign(g, budget, client, term) then g.consumed else 0
  }

  /** What a ceiling is meant to bound: the term's opening and all bytes issued for it. */
  ghost function TermIssued(s: State, term: Id): int
    requires term in s.terms && s.terms[term].budget in s.opening
  {
    s.opening[s.terms[term].budget] + MapSum(s.grants, IssuedFor(s.terms[term].client, term))
  }

  lemma LinkedGrantsSplit(s: State, term: Id)
    requires TermsOk(s.terms, s.grants, s.budgets) && term in s.terms
    ensures var t := s.terms[term];
      && MapSum(s.grants, IssuedIn(t.budget)) ==
        MapSum(s.grants, IssuedFor(t.client, term)) + MapSum(s.grants, ForeignIssued(t.budget, t.client, term))
      && MapSum(s.grants, ConsumedIn(t.budget)) ==
        MapSum(s.grants, ConsumedFor(t.client, term)) + MapSum(s.grants, ForeignConsumed(t.budget, t.client, term))
  {
    var t := s.terms[term];
    MapSumOfSums(s.grants, IssuedFor(t.client, term), ForeignIssued(t.budget, t.client, term), IssuedIn(t.budget));
    MapSumOfSums(s.grants, ConsumedFor(t.client, term), ForeignConsumed(t.budget, t.client, term),
      ConsumedIn(t.budget));
  }

  lemma HeldAndConsumedIsIssued(grants: map<Id, Grant>, budget: Id)
    ensures MapSum(grants, IssuedIn(budget)) == MapSum(grants, ConsumedIn(budget)) + MapSum(grants, HeldIn(budget))
  {
    MapSumOfSums(grants, ConsumedIn(budget), HeldIn(budget), IssuedIn(budget));
  }

  /** Both branches count the term's opening and issued bytes, plus what foreign
      grants on its budget were issued (limited) or consumed (unlimited). */
  lemma {:induction false} CeilingCounts(s: State, term: Id)
    requires Inv(s) && term in s.terms
    requires var t := s.terms[term];
      t.budget in s.budgets && CeilingUse(s.budgets[t.budget], s.grants, t.client, term).Ok?
    ensures var t := s.terms[term];
      var (used, reserved) := CeilingUse(s.budgets[t.budget], s.grants, t.client, term).value;
      used + reserved == TermIssued(s, term) + MapSum(s.grants, if s.budgets[t.budget].unlimited
        then ForeignConsumed(t.budget, t.client, term) else ForeignIssued(t.budget, t.client, term))
  {
    var t := s.terms[term];
    assert BudgetOk(s.budgets[t.budget], t.budget, s.opening[t.budget], s.grants);
    UseCounts(s.budgets[t.budget], s.opening[t.budget], s.grants, t.budget, t.client, term);
    LinkedGrantsSplit(s, term);
  }

  /** The same of one budget row that adds up. */
  lemma {:induction false} UseCounts(b: Budget, opening: int, grants: map<Id, Grant>, budget: Id, client: Id, term: Id)
    requires BudgetOk(b, budget, opening, grants) && CeilingUse(b, grants, client, term).Ok?
    ensures var (used, reserved) := CeilingUse(b, grants, client, term).value;
      used + reserved == if b.unlimited
        then opening + MapSum(grants, ConsumedIn(budget)) - MapSum(grants, ConsumedFor(client, term))
          + MapSum(grants, IssuedFor(client, term))
        else opening + MapSum(grants, IssuedIn(budget))
  {
    HeldAndConsumedIsIssued(grants, budget);
  }

  predicate NothingForeign(s: State, term: Id)
    requires term in s.terms && s.terms[term].budget in s.budgets
  {
    var t := s.terms[term];
    forall id :: id in s.grants && Foreign(s.grants[id], t.budget, t.client, term) ==>
                   (if s.budgets[t.budget].unlimited then s.grants[id].consumed else s.grants[id].issued) == 0
  }

  lemma ForeignIsZero(s: State, term: Id)
    requires GrantsOk(s.grants, s.budgets) && term in s.terms && s.terms[term].budget in s.budgets
    ensures var t := s.terms[term];
      var foreign := if s.budgets[t.budget].unlimited then ForeignConsumed(t.budget, t.client, term)
      else ForeignIssued(t.budget, t.client, term);
      0 <= MapSum(s.grants, foreign) && (MapSum(s.grants, foreign) == 0 <==> NothingForeign(s, term))
  {
    var t := s.terms[term];
    var foreign := if s.budgets[t.budget].unlimited then ForeignConsumed(t.budget, t.client, term)
      else ForeignIssued(t.budget, t.client, term);
    forall id | id in s.grants ensures 0 <= foreign(s.grants[id]) {
      assert GrantOk(s.grants[id], s.budgets);
    }
    MapSumNonNegative(s.grants, foreign);
    if NothingForeign(s, term) {
      MapSumAllZero(s.grants, foreign);
    }
    if MapSum(s.grants, foreign) == 0 {
      MapSumZero(s.grants, foreign);
      forall id | id in s.grants && Foreign(s.grants[id], t.budget, t.client, term)
        ensures (if s.budgets[t.budget].unlimited then s.grants[id].consumed else s.grants[id].issued) == 0
      {
        assert foreign(s.grants[id]) == 0;
      }
    }
  }

  /** The ceiling counts the term's opening and issued bytes exactly when no
      foreign grant counts against its budget, and never less. */
  lemma CeilingIsExactWithoutForeignGrants(s: State, term: Id)
    requires Inv(s) && term in s.terms
    requires var t := s.terms[term];
      t.budget in s.budgets && CeilingUse(s.budgets[t.budget], s.grants, t.client, term).Ok?
    ensures var t := s.terms[term];
      var (used, reserved) := CeilingUse(s.budgets[t.budget], s.grants, t.client, term).value;
      used + reserved >= TermIssued(s, term) && (used + reserved == TermIssued(s, term) <==> NothingForeign(s, term))
  {
    CeilingCounts(s, term);
    ForeignIsZero(s, term);
  }

  const FOREIGN := ReserveRequest(1, 1, 1, 1, "runtime", 2, 2, [1], 5, false)

  const FOREIGN_GRANT := Grant(2, 2, 1, 1, "runtime", false, 5, 0, 1, None, {1})

  lemma ForeignReserve(s: State)
    requires s == EMPTY.(budgets := map[1 := Budget.Budget(100, false, 0, 0)], opening := map[1 := 0],
      terms := map[1 := Term(1, 1)], usage := map[1 := Traffic(0, 0)])
    ensures var r := Reserve(s, FOREIGN, None, Pass, Pass);
      r.Ok? && r.value.0.budgets == map[1 := Budget.Budget(100, false, 0, 5)]
        && r.value.0.grants == map[1 := FOREIGN_GRANT]
  {
    assert Members([1]) == {1} by { assert 1 in [1]; }
    assert GrantFor(s, FOREIGN, None) == Ok(FOREIGN_GRANT.(issued := 0));
  }

  /** A run in which another client's grant draws on a term's budget: the ceiling
      then counts more than the term's opening and issued bytes. */
  lemma ForeignGrantCounts() returns (events: seq<Event>)
    ensures HonestRun(events)
    ensures After(events).store.terms == map[1 := Term(1, 1)] && After(events).store.opening == map[1 := 0]
      && 1 in After(events).store.budgets
    ensures TermIssued(After(events).store, 1) == 0
      && CeilingUse(After(events).store.budgets[1], After(events).store.grants, 1, 1) == Ok((0, 5))
  {
    var open := NewTermEvent(1, 1, 1, 100, false, 0);
    events := [open, ReserveEvent(FOREIGN, None, Pass, Pass)];
    assert events[..1] == [open] && [open][..0] == [];
    assert After([open]) == Next(After([]), open) && HonestRun([]) && HonestRun([open]);
    ForeignReserve(After([open]).store);
    assert After(events) == Next(After([open]), events[1]);
    MapSumWrite(map[], 1, FOREIGN_GRANT, IssuedFor(1, 1));
    assert map[][1 := FOREIGN_GRANT] == After(events).store.grants;
  }

  lemma TermConsumedIsUsed(s: State, term: Id)
    requires BudgetsOk(s.budgets, s.opening, s.grants) && GrantsOk(s.grants, s.budgets)
      && TermsOk(s.terms, s.grants, s.budgets) && term in s.terms
    ensures var t := s.terms[term];
      MapSum(s.grants, ConsumedFor(t.client, term)) <= s.budgets[t.budget].used <= MAX_INT64
  {
    var t := s.terms[term];
    assert BudgetOk(s.budgets[t.budget], t.budget, s.opening[t.budget], s.grants);
    LinkedGrantsSplit(s, term);
    ForeignIsNotNegative(s.grants, s.budgets, t.budget, t.client, term);
  }

  lemma ForeignIsNotNegative(grants: map<Id, Grant>, budgets: map<Id, Budget>, budget: Id, client: Id, term: Id)
    requires GrantsOk(grants, budgets)
    ensures 0 <= MapSum(grants, ForeignConsumed(budget, client, term))
  {
    var foreign := ForeignConsumed(budget, client, term);
    forall id | id in grants ensures 0 <= foreign(grants[id]) {
      assert GrantOk(grants[id], budgets);
    }
    MapSumNonNegative(grants, foreign);
  }

  lemma TermConsumedIsIssued(grants: map<Id, Grant>, budgets: map<Id, Budget>, client: Id, term: Id)
    requires GrantsOk(grants, budgets) && !AnyUnlimited(grants, client, term)
    ensures MapSum(grants, ConsumedFor(client, term)) <= MapSum(grants, IssuedFor(client, term))
  {
    forall id | id in grants ensures ConsumedFor(client, term)(grants[id]) <= IssuedFor(client, term)(grants[id]) {
      assert GrantOk(grants[id], budgets);
    }
    MapSumMonotone(grants, grants, ConsumedFor(client, term), IssuedFor(client, term));
  }

  lemma CeilingUseIsSane(own: Budget, grants: map<Id, Grant>, client: Id, term: Id)
    requires own.unlimited && MapSum(grants, ConsumedFor(client, term)) <= own.used <= MAX_INT64
    requires !AnyUnlimited(grants, client, term) ==>
      MapSum(grants, ConsumedFor(client, term)) <= MapSum(grants, IssuedFor(client, term))
    ensures CeilingUse(own, grants, client, term).Ok? <==>
      !AnyUnlimited(grants, client, term) && MapSum(grants, IssuedFor(client, term)) <= MAX_INT64
  {
  }

  /** The unlimited branch's own sanity checks cannot refuse: it only wants no
      unlimited grant in the term and a sum that fits. */
  lemma UnlimitedCeilingIsSane(s: State, term: Id)
    requires BudgetsOk(s.budgets, s.opening, s.grants) && GrantsOk(s.grants, s.budgets)
      && TermsOk(s.terms, s.grants, s.budgets)
    requires term in s.terms && s.terms[term].budget in s.budgets && s.budgets[s.terms[term].budget].unlimited
    ensures var t := s.terms[term]; CeilingUse(s.budgets[t.budget], s.grants, t.client, term).Ok? <==>
      !AnyUnlimited(s.grants, t.client, term) && MapSum(s.grants, IssuedFor(t.client, term)) <= MAX_INT64
  {
    var t := s.terms[term];
    TermConsumedIsUsed(s, term);
    if !AnyUnlimited(s.grants, t.client, term) {
      TermConsumedIsIssued(s.grants, s.budgets, t.client, term);
    }
    CeilingUseIsSane(s.budgets[t.budget], s.grants, t.client, term);
  }

  // ----- a successful credit stays within its ceiling -----

  lemma {:induction false} CreditFitsCeiling(s: State, r: CreditRequest, amount: int)
    requires Inv(s) && r.term in s.terms && ValidCredit(r) && r.ceiling != 0
    requires var t := s.terms[r.term];
      t.budget in s.budgets && t.budget !in r.parents && (forall id :: id in [t.budget] + r.parents ==> id in s.budgets)
    requires var t := s.terms[r.term];
      CreditAmount(Relimited(s.budgets, r.limits), s.grants, [t.budget] + r.parents, t.budget, t.client, r) ==
      Ok(amount)
    ensures TermIssued(s, r.term) + amount <= r.ceiling && amount > 0
  {
    var t := s.terms[r.term];
    assert t.budget !in Members(r.parents);
    assert Relimited(s.budgets, r.limits)[t.budget] == s.budgets[t.budget];
    AmountFitsCeiling(Relimited(s.budgets, r.limits), s.grants, [t.budget] + r.parents, t.budget, t.client, r);
    CeilingIsExactWithoutForeignGrants(s, r.term);
  }

  /** An amount is given within what the ceiling leaves. */
  lemma {:induction false} AmountFitsCeiling(budgets: map<Id, Budget>, grants: map<Id, Grant>, ids: seq<Id>, own: Id,
      client: Id, r: CreditRequest)
    requires own in budgets && (forall id :: id in ids ==> id in budgets) && r.ceiling != 0
    requires CreditAmount(budgets, grants, ids, own, client, r).Ok?
    ensures var amount, use := CreditAmount(budgets, grants, ids, own, client, r).value,
      CeilingUse(budgets[own], grants, client, r.term);
      use.Ok? && 0 < amount <= r.ceiling - use.value.0 - use.value.1
  {
  }

  /** A reservation issues its bytes or, replayed, nothing; only for its own client and term. */
  lemma ReserveIssues(s: State, in': ReserveRequest, placement: Option<Id>, fence: Check, guard: Check, client: Id,
      term: Id)
    requires GrantsOk(s.grants, s.budgets) && Reserve(s, in', placement, fence, guard).Ok?
    ensures var t := Reserve(s, in', placement, fence, guard).value.0;
      && t.opening == s.opening && t.terms == s.terms && t.budgets.Keys == s.budgets.Keys
      && MapSum(s.grants, IssuedFor(client, term)) <= MapSum(t.grants, IssuedFor(client, term))
      && MapSum(t.grants, IssuedFor(client, term)) <= MapSum(s.grants, IssuedFor(client, term)) + in'.bytes
      && (in'.term != term ==> MapSum(t.grants, IssuedFor(client, term)) == MapSum(s.grants, IssuedFor(client, term)))
  {
    if in'.operation !in s.operations {
      ReserveShape(s, in', placement, fence, guard);
      var (t, result) := Reserve(s, in', placement, fence, guard).value;
      MapSumWrite(s.grants, in'.grant, result, IssuedFor(client, term));
    }
  }

  /** A credit issues at most the amount it is given, and only for its own term. */
  lemma CreditIssues(s: State, r: CreditRequest, t: Target, guard: Check, inner: Check, client: Id, term: Id)
      returns (amount: int)
    requires Inv(s) && ReserveClientCredit(s, r, t, guard, inner).Ok? && r.operation !in s.operations
    ensures ValidCredit(r) && r.term in s.terms && s.terms[r.term].budget !in r.parents
    ensures forall id :: id in [s.terms[r.term].budget] + r.parents ==> id in s.budgets
    ensures var own := s.terms[r.term];
      CreditAmount(Relimited(s.budgets, r.limits), s.grants, [own.budget] + r.parents, own.budget, own.client, r) ==
        Ok(amount)
    ensures var after := ReserveClientCredit(s, r, t, guard, inner).value.0;
      && after.opening == s.opening && after.terms == s.terms && after.budgets.Keys == s.budgets.Keys
      && MapSum(after.grants, IssuedFor(client, term)) <= MapSum(s.grants, IssuedFor(client, term)) + amount
      && (r.term != term ==> MapSum(after.grants, IssuedFor(client, term)) == MapSum(s.grants, IssuedFor(client, term)))
  {
    amount := CreditSteps(s, r, t, guard, inner);
    var claimed := Claimed(s, r, Relimited(s.budgets, r.limits));
    RelimitingKeepsInv(s, r.limits, claimed.operations);
    ReserveIssues(claimed, Drawn(s, r, t, amount), Some(t.placement), Pass, inner, client, term);
  }

  /** Every new credit with a ceiling leaves the term's opening and issued bytes within it. */
  lemma CeilingHolds(s: State, r: CreditRequest, t: Target, guard: Check, inner: Check)
    requires Inv(s) && ReserveClientCredit(s, r, t, guard, inner).Ok? && r.operation !in s.operations && r.ceiling != 0
    ensures var after := ReserveClientCredit(s, r, t, guard, inner).value.0;
      r.term in after.terms && after.terms[r.term].budget in after.opening && TermIssued(after, r.term) <= r.ceiling
  {
    var term := s.terms[r.term];
    var amount := CreditIssues(s, r, t, guard, inner, term.client, r.term);
    assert term.budget in [term.budget] + r.parents;
    CreditFitsCeiling(s, r, amount);
  }

  /** Everything issued for the term is issued by credits under this ceiling. */
  ghost predicate UnderCeiling(e: Event, term: Id, ceiling: int)
  {
    match e
    case ReserveEvent(request, _, _, _) => request.term != term
    case CreditEvent(request, _, _, _) => request.term == term ==> 0 < request.ceiling <= ceiling
    case _ => true
  }

  /** Nothing was issued for the term yet, or all of it is within the ceiling. */
  ghost predicate WithinCeiling(s: State, term: Id, ceiling: int)
  {
    term in s.terms && s.terms[term].budget in s.opening ==>
      TermIssued(s, term) <= ceiling || TermIssued(s, term) == s.opening[s.terms[term].budget]
  }

  /** The term was issued nothing between two stores. */
  ghost predicate NothingIssued(s: State, t: State, term: Id)
  {
    && t.terms == s.terms && t.opening == s.opening
    && (term in s.terms ==>
      MapSum(t.grants, IssuedFor(s.terms[term].client, term)) ==
      MapSum(s.grants, IssuedFor(s.terms[term].client, term)))
  }

  lemma StaysWithin(s: State, t: State, term: Id, ceiling: int)
    requires WithinCeiling(s, term, ceiling) && NothingIssued(s, t, term)
    ensures WithinCeiling(t, term, ceiling)
  {
  }

  lemma CreditReplay(s: State, r: CreditRequest, t: Target, guard: Check, inner: Check)
    requires ReserveClientCredit(s, r, t, guard, inner).Ok? && r.operation in s.operations
    ensures ReserveClientCredit(s, r, t, guard, inner).value.0 == s
  {
  }

  lemma OtherCreditIssuesNothing(s: State, r: CreditRequest, t: Target, guard: Check, inner: Check, term: Id)
    requires Inv(s) && ReserveClientCredit(s, r, t, guard, inner).Ok? && r.operation !in s.operations && r.term != term
    ensures NothingIssued(s, ReserveClientCredit(s, r, t, guard, inner).value.0, term)
  {
    var _ := CreditIssues(s, r, t, guard, inner, if term in s.terms then s.terms[term].client else 0, term);
  }

  lemma CreditStaysWithin(s: State, r: CreditRequest, t: Target, guard: Check, inner: Check, term: Id, ceiling: int,
      after: State)
    requires Inv(s) && WithinCeiling(s, term, ceiling)
    requires ReserveClientCredit(s, r, t, guard, inner).Ok?
      && after == ReserveClientCredit(s, r, t, guard, inner).value.0
    requires r.term == term ==> 0 < r.ceiling <= ceiling
    ensures WithinCeiling(after, term, ceiling)
  {
    if r.operation in s.operations {
      CreditReplay(s, r, t, guard, inner);
    } else if r.term == term {
      CeilingHolds(s, r, t, guard, inner);
    } else {
      OtherCreditIssuesNothing(s, r, t, guard, inner, term);
      StaysWithin(s, after, term, ceiling);
    }
  }

  lemma ReserveStaysWithin(s: State, in': ReserveRequest, placement: Option<Id>, fence: Check, guard: Check, term: Id,
      ceiling: int, after: State)
    requires GrantsOk(s.grants, s.budgets) && WithinCeiling(s, term, ceiling) && in'.term != term
    requires Reserve(s, in', placement, fence, guard).Ok? && after == Reserve(s, in', placement, fence, guard).value.0
    ensures WithinCeiling(after, term, ceiling)
  {
    ReserveIssues(s, in', placement, fence, guard, if term in s.terms then s.terms[term].client else 0, term);
    StaysWithin(s, after, term, ceiling);
  }

  lemma {:induction false} BatchIssuesNothing(w: Work, node: Id, installation: Id, cs: seq<Checkpoint>, after: Work,
      client: Id, term: Id)
    requires InScope(w.budgets, w.grants, node, installation, cs)
      && ApplyCheckpoints(w, node, installation, cs) == Ok(after)
    ensures MapSum(after.grants, IssuedFor(client, term)) == MapSum(w.grants, IssuedFor(client, term))
    decreases |cs|
  {
    if cs != [] {
      var v, u, up, down := LastAccepted(w, node, installation, cs);
      BatchIssuesNothing(w, node, installation, cs[..|cs| - 1], v, client, term);
      MapSumEqual(v.grants, u.grants, IssuedFor(client, term), IssuedFor(client, term));
    }
  }

  lemma UsageStaysWithin(s: State, b: Batch, guard: Check, term: Id, ceiling: int, after: State)
    requires WithinCeiling(s, term, ceiling) && Ingest(s, b, guard).Ok? && after == Ingest(s, b, guard).value.0
    ensures WithinCeiling(after, term, ceiling)
  {
    if b.sequence > CursorAt(s, b.node, b.installation).sequence {
      var w := BatchShape(s, b);
      if term in s.terms {
        BatchIssuesNothing(Work(s.budgets, s.grants, s.meters, map[]), b.node, b.installation, b.checkpoints, w,
          s.terms[term].client, term);
      }
      StaysWithin(s, after, term, ceiling);
    }
  }

  lemma {:induction false} RowsStayWithin(s: State, t: State, id: Id, row: Term, opening: int, term: Id, ceiling: int)
    requires TermsOk(s.terms, s.grants, s.budgets) && NewTerm(s, id) && row.budget !in s.budgets
    requires s.budgets.Keys == s.opening.Keys && WithinCeiling(s, term, ceiling)
    requires t.terms == s.terms[id := row] && t.opening == s.opening[row.budget := opening] && t.grants == s.grants
    ensures WithinCeiling(t, term, ceiling)
  {
    if id == term {
      MapSumAllZero(s.grants, IssuedFor(row.client, id));
    } else if term in s.terms {
      assert t.terms[term] == s.terms[term] && t.opening[s.terms[term].budget] == s.opening[s.terms[term].budget];
    }
  }

  lemma {:induction false} NewTermStaysWithin(s: State, id: Id, client: Id, budget: Id, quota: int, unlimited: bool,
      opening: int, term: Id, ceiling: int)
    requires Inv(s) && NewTerm(s, id) && OpenTerm(s, id, client, budget, quota, unlimited, opening).Ok?
      && WithinCeiling(s, term, ceiling)
    ensures WithinCeiling(OpenTerm(s, id, client, budget, quota, unlimited, opening).value, term, ceiling)
  {
    RowsStayWithin(s, OpenTerm(s, id, client, budget, quota, unlimited, opening).value, id, Term(client, budget),
      opening, term, ceiling);
  }

  lemma NewBudgetStaysWithin(s: State, id: Id, limit: int, unlimited: bool, opening: int, term: Id, ceiling: int)
    requires Inv(s) && CreateBudget(s, id, limit, unlimited, opening).Ok? && WithinCeiling(s, term, ceiling)
    ensures WithinCeiling(CreateBudget(s, id, limit, unlimited, opening).value, term, ceiling)
  {
  }

  lemma StoreStaysWithin(s: State, e: Event, term: Id, ceiling: int)
    requires Inv(s) && (e.NewTermEvent? ==> NewTerm(s, e.term)) && UnderCeiling(e, term, ceiling)
      && WithinCeiling(s, term, ceiling)
    ensures WithinCeiling(StoreAfter(s, e), term, ceiling)
  {
    var after := StoreAfter(s, e);
    if after != s {
      match e
      case NewBudget(id, limit, unlimited, opening) =>
        NewBudgetStaysWithin(s, id, limit, unlimited, opening, term, ceiling);
      case NewTermEvent(id, client, budget, quota, unlimited, opening) =>
        NewTermStaysWithin(s, id, client, budget, quota, unlimited, opening, term, ceiling);
      case ReserveEvent(request, placement, fence, guard) =>
        ReserveStaysWithin(s, request, placement, fence, guard, term, ceiling, after);
      case CreditEvent(request, target, guard, inner) =>
        CreditStaysWithin(s, request, target, guard, inner, term, ceiling, after);
      case UsageEvent(batch, guard) => UsageStaysWithin(s, batch, guard, term, ceiling, after);
    }
  }

  /** Over every run in which a term is issued bytes only by credits under a ceiling,
      its opening and issued bytes stay within that ceiling from its first credit on. */
  lemma {:induction false} CeilingHoldsOverRuns(events: seq<Event>, term: Id, ceiling: int)
    requires HonestRun(events) && forall i :: 0 <= i < |events| ==> UnderCeiling(events[i], term, ceiling)
    ensures WithinCeiling(After(events).store, term, ceiling)
  {
    if events != [] {
      var init, e := events[..|events| - 1], events[|events| - 1];
      CeilingHoldsOverRuns(init, term, ceiling);
      RunKeepsInv(init);
      StoreStaysWithin(After(init).store, e, term, ceiling);
    }
  }

  // ----- a partial credit is the largest one admitted -----

  /** An amount every budget and the ceiling have room for. */
  ghost predicate Admits(budgets: map<Id, Budget>, grants: map<Id, Grant>, ids: seq<Id>, own: Id, client: Id,
      r: CreditRequest, a: int)
    requires own in budgets && forall id :: id in ids ==> id in budgets
  {
    && 0 < a <= r.bytes && (forall id :: id in ids && !budgets[id].unlimited ==> a <= Room(budgets[id]))
    && (r.ceiling != 0 ==>
          var use := CeilingUse(budgets[own], grants, client, r.term);
          use.Ok? && a <= r.ceiling - use.value.0 - use.value.1)
  }

  lemma {:induction false} LeastRoomIsLeast(budgets: map<Id, Budget>, ids: seq<Id>, amount: int)
    requires forall id :: id in ids ==> id in budgets
    ensures var least := LeastRoom(budgets, ids, amount);
      && least <= amount && (forall id :: id in ids && !budgets[id].unlimited ==> least <= Room(budgets[id]))
      && (least == amount || exists id :: id in ids && !budgets[id].unlimited && least == Room(budgets[id]))
  {
    if ids != [] {
      var init, last := ids[..|ids| - 1], ids[|ids| - 1];
      LeastRoomIsLeast(budgets, init, amount);
      assert ids == init + [last];
      var rest := LeastRoom(budgets, init, amount);
      if rest != amount && (budgets[last].unlimited || rest <= Room(budgets[last])) {
        var id :| id in init && !budgets[id].unlimited && rest == Room(budgets[id]);
        assert id in ids;
      }
    }
  }

  ghost predicate Balanced(budgets: map<Id, Budget>, ids: seq<Id>)
    requires forall id :: id in ids ==> id in budgets
  {
    forall id :: id in ids && !budgets[id].unlimited ==>
      0 <= budgets[id].used && 0 <= budgets[id].reserved && budgets[id].used + budgets[id].reserved <= budgets[id].limit
  }

  lemma IssuedIsNotNegative(grants: map<Id, Grant>, budgets: map<Id, Budget>, client: Id, term: Id)
    requires GrantsOk(grants, budgets)
    ensures 0 <= MapSum(grants, IssuedFor(client, term))
  {
    forall id | id in grants ensures 0 <= IssuedFor(client, term)(grants[id]) {
      assert GrantOk(grants[id], budgets);
    }
    MapSumNonNegative(grants, IssuedFor(client, term));
  }

  /** A partial request is refused only when nothing at all is admitted, and
      otherwise gets the largest admitted amount. */
  lemma PartialAmountIsLargest(budgets: map<Id, Budget>, grants: map<Id, Grant>, ids: seq<Id>, own: Id, client: Id,
      r: CreditRequest)
    requires own in ids && (forall id :: id in ids ==> id in budgets) && Balanced(budgets, ids)
      && GrantsOk(grants, budgets) && ValidCredit(r) && r.partial
    ensures var given := CreditAmount(budgets, grants, ids, own, client, r);
      match given
      case Ok(amount) => Admits(budgets, grants, ids, own, client, r, amount)
        && forall a :: Admits(budgets, grants, ids, own, client, r, a) ==> a <= amount
      case Err(_) => forall a :: !Admits(budgets, grants, ids, own, client, r, a)
  {
    LeastRoomIsLeast(budgets, ids, r.bytes);
    IssuedIsNotNegative(grants, budgets, client, r.term);
    forall a | Admits(budgets, grants, ids, own, client, r, a) ensures a <= LeastRoom(budgets, ids, r.bytes) {
    }
  }

  /** The budgets of a credit are balanced once its parents took their new limits. */
  lemma CreditBudgetsAreBalanced(s: State, limits: map<Id, int>, ids: seq<Id>)
    requires Inv(s) && Relimits(s.budgets, limits) && forall id :: id in ids ==> id in s.budgets
    ensures Balanced(Relimited(s.budgets, limits), ids)
  {
    RelimitingKeepsBudgets(s.budgets, s.opening, s.grants, limits);
    forall id | id in ids && !Relimited(s.budgets, limits)[id].unlimited
      ensures var b := Relimited(s.budgets, limits)[id];
        0 <= b.used && 0 <= b.reserved && b.used + b.reserved <= b.limit
    {
      assert BudgetOk(Relimited(s.budgets, limits)[id], id, s.opening[id], s.grants);
    }
  }
}
