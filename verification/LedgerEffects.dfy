/** What reservations and credits accept and what they write, said row by row of
    the tables before and after them. Nothing here names a transaction: the lemmas
    at the end of each part tie these relations to `Ledger`. */
module LedgerEffects {
  import opened Results
  import opened MapSums
  import opened Ledger
  import opened LedgerSafety

  // ----- reservations -----

  predicate WellFormed(q: ReserveRequest)
  {
    && q.operation != 0 && q.grant != 0 && q.node != 0 && q.installation != 0 && q.client != 0 && q.term != 0
    && ValidRuntime(q.runtime) && 1 <= |q.budgets| <= 64 && 0 !in q.budgets
    && (forall i, j :: 0 <= i < j < |q.budgets| ==> q.budgets[i] != q.budgets[j])
    && (if q.unlimited then q.bytes == 0 else 1 <= q.bytes <= MAX_INT64)
  }

  /** A limited budget has room for bytes beside what it used and reserved, and none for the unlimited. */
  predicate HasRoom(b: Budget, bytes: int, unlimited: bool)
  {
    b.unlimited || (!unlimited && b.used <= b.limit && b.used + b.reserved + bytes <= b.limit)
  }

  /** A grant that exists already is the one asked for, linked to the same budgets. */
  ghost predicate GrantReady(s: State, q: ReserveRequest, placement: Option<Id>)
  {
    q.grant in s.grants ==>
      && var g := s.grants[q.grant];
      && g.node == q.node && g.installation == q.installation && g.runtime == q.runtime && g.client == q.client
      && g.term == q.term && g.unlimited == q.unlimited && g.revision != MAX_INT64
      && (placement.Some? ==> g.placement == placement) && (forall id :: id in g.budgets <==> id in q.budgets)
  }

  function IssuedTo(s: State, grant: Id): int
  {
    if grant in s.grants then s.grants[grant].issued else 0
  }

  ghost predicate MayReserve(s: State, q: ReserveRequest, placement: Option<Id>)
  {
    && (q.term in s.terms && s.terms[q.term].client == q.client ==> s.terms[q.term].budget in q.budgets)
    && (forall id :: id in q.budgets ==> id in s.budgets && HasRoom(s.budgets[id], q.bytes, q.unlimited))
    && GrantReady(s, q, placement) && 0 <= IssuedTo(s, q.grant) && IssuedTo(s, q.grant) + q.bytes <= MAX_INT64
  }

  /** The grant with its bytes issued: one revision on, or new and linked to the budgets asked for. */
  ghost predicate GrantIssued(s: State, q: ReserveRequest, placement: Option<Id>, g: Grant)
  {
    && g.issued == IssuedTo(s, q.grant) + q.bytes
    && if q.grant in s.grants
       then g == s.grants[q.grant].(issued := g.issued, revision := s.grants[q.grant].revision + 1)
       else
         && g == Grant(q.client, q.term, q.node, q.installation, q.runtime, q.unlimited, q.bytes, 0, 1, placement,
           g.budgets)
         && forall id :: id in g.budgets <==> id in q.budgets
  }

  /** Every limited budget of a list has the bytes reserved, the others are as they were. */
  predicate BytesReserved(was: map<Id, Budget>, now: map<Id, Budget>, ids: seq<Id>, bytes: int)
  {
    && now.Keys == was.Keys
    && forall id :: id in was ==>
      now[id] == if id in ids && !was[id].unlimited then was[id].(reserved := was[id].reserved + bytes) else was[id]
  }

  ghost predicate ReservedFor(s: State, t: State, q: ReserveRequest, placement: Option<Id>, g: Grant)
  {
    && GrantIssued(s, q, placement, g) && BytesReserved(s.budgets, t.budgets, q.budgets, q.bytes)
    && t == s.(budgets := t.budgets, grants := s.grants[q.grant := g],
      operations := s.operations[q.operation := Operation(Reservation(q), g)])
  }

  /** The same request but for the order of its budgets. */
  predicate Again(p: Payload, q: ReserveRequest)
  {
    p.Reservation? && p.reserve == q.(budgets := p.reserve.budgets)
      && multiset(p.reserve.budgets) == multiset(q.budgets)
  }

  /** A repeated reservation gives the recorded grant back, a new one is taken exactly
      when it may be, a refused one changes nothing. */
  ghost predicate ReserveDone(s: State, t: State, q: ReserveRequest, placement: Option<Id>, fence: Check, guard: Check,
      r: Result<Grant>)
  {
    && (r.Err? ==> t == s)
    && if q.operation in s.operations then
         && (r.Ok? <==> WellFormed(q) && fence == Pass && Again(s.operations[q.operation].payload, q))
         && (r.Ok? ==> t == s && r.value == s.operations[q.operation].result)
       else
         && (r.Ok? <==> WellFormed(q) && fence == Pass && guard == Pass && MayReserve(s, q, placement))
         && (r.Ok? ==> ReservedFor(s, t, q, placement, r.value))
  }

  ghost function Left<T>(r: Result<(State, T)>, s: State): State
  {
    if r.Ok? then r.value.0 else s
  }

  ghost function Given<T>(r: Result<(State, T)>): Result<T>
  {
    match r case Ok(v) => Ok(v.1) case Err(e) => Err(e)
  }

  lemma PlanIsDecided(s: State, q: ReserveRequest, placement: Option<Id>)
    requires WellFormed(q)
    ensures PlanReserve(s, q, placement).Ok? <==> MayReserve(s, q, placement)
  {
    assert forall id :: id in q.budgets <==> id in Members(q.budgets);
    assert q.grant in s.grants ==>
      (s.grants[q.grant].budgets == Members(q.budgets) <==>
        forall id :: id in s.grants[q.grant].budgets <==> id in q.budgets);
  }

  lemma PlanIssues(s: State, q: ReserveRequest, placement: Option<Id>)
    requires WellFormed(q) && PlanReserve(s, q, placement).Ok?
    ensures var (g, budgets) := PlanReserve(s, q, placement).value;
      GrantIssued(s, q, placement, g) && BytesReserved(s.budgets, budgets, q.budgets, q.bytes)
  {
    assert forall id :: id in q.budgets <==> id in Members(q.budgets);
  }

  lemma ReserveDoes(s: State, q: ReserveRequest, placement: Option<Id>, fence: Check, guard: Check)
    ensures var r := Reserve(s, q, placement, fence, guard);
      ReserveDone(s, Left(r, s), q, placement, fence, guard, Given(r))
  {
    assert ValidReserve(q) <==> WellFormed(q);
    if WellFormed(q) && q.operation !in s.operations {
      PlanIsDecided(s, q, placement);
      if PlanReserve(s, q, placement).Ok? {
        PlanIssues(s, q, placement);
      }
    }
  }

  // ----- client credits -----

  predicate WellAsked(r: CreditRequest)
  {
    && r.operation != 0 && r.term != 0 && 1 <= r.bytes <= MAX_INT64 && 0 <= r.ceiling <= MAX_INT64
    && |r.parents| <= 63 && 0 !in r.parents
    && (forall i, j :: 0 <= i < j < |r.parents| ==> r.parents[i] != r.parents[j])
    && r.limits.Keys == (set id | id in r.parents) && forall id :: id in r.limits ==> 0 <= r.limits[id] <= MAX_INT64
  }

  /** The budgets a credit draws on: the term's own and the parents it names. */
  predicate Draws(s: State, r: CreditRequest, id: Id)
    requires r.term in s.terms
  {
    id == s.terms[r.term].budget || id in r.parents
  }

  /** The budgets are known, the own one apart, and every parent is limited and within its new limit. */
  predicate ParentsReady(s: State, r: CreditRequest)
    requires r.term in s.terms && WellAsked(r)
  {
    && s.terms[r.term].budget in s.budgets && s.terms[r.term].budget !in r.parents
    && forall id :: id in r.parents ==>
      && id in s.budgets && !s.budgets[id].unlimited && s.budgets[id].used <= r.limits[id]
      && s.budgets[id].used + s.budgets[id].reserved <= r.limits[id]
  }

  /** The limit a budget has once the parents took their new ones. */
  function LimitFor(s: State, r: CreditRequest, id: Id): int
    requires id in s.budgets
  {
    if id in r.limits then r.limits[id] else s.budgets[id].limit
  }

  /** Every limited budget the credit draws on has room for the amount. */
  predicate BudgetsAdmit(s: State, r: CreditRequest, n: int)
    requires r.term in s.terms && WellAsked(r) && ParentsReady(s, r)
  {
    forall id :: id in s.budgets && Draws(s, r, id) && !s.budgets[id].unlimited ==>
      && s.budgets[id].used <= LimitFor(s, r, id)
      && s.budgets[id].used + s.budgets[id].reserved + n <= LimitFor(s, r, id)
  }

  /** The ceiling, if there is one, has room for the amount beside what counts against it:
      what the term's budget used and reserved or, where that is unlimited, what it used
      outside the term's grants and what those were issued. */
  ghost predicate BelowCeiling(own: Budget, grants: map<Id, Grant>, client: Id, r: CreditRequest, n: int)
  {
    var issued, consumed := MapSum(grants, IssuedFor(client, r.term)), MapSum(grants, ConsumedFor(client, r.term));
    r.ceiling != 0 ==>
      if own.unlimited then
        && (forall id :: id in grants && grants[id].client == client && grants[id].term == r.term ==>
          !grants[id].unlimited)
        && issued <= MAX_INT64 && consumed <= own.used && consumed <= issued
        && own.used - consumed <= r.ceiling && own.used - consumed + issued + n <= r.ceiling
      else own.used <= r.ceiling && own.used + own.reserved + n <= r.ceiling
  }

  ghost predicate CeilingAdmits(s: State, r: CreditRequest, n: int)
    requires r.term in s.terms && WellAsked(r) && ParentsReady(s, r)
  {
    BelowCeiling(s.budgets[s.terms[r.term].budget], s.grants, s.terms[r.term].client, r, n)
  }

  ghost predicate Admitted(s: State, r: CreditRequest, n: int)
    requires r.term in s.terms && WellAsked(r) && ParentsReady(s, r)
  {
    1 <= n <= r.bytes && BudgetsAdmit(s, r, n) && CeilingAdmits(s, r, n)
  }

  /** All that was asked, or the most that is admitted where a part will do. */
  ghost predicate AmountIs(s: State, r: CreditRequest, n: int)
    requires r.term in s.terms && WellAsked(r) && ParentsReady(s, r)
  {
    Admitted(s, r, n) && if r.partial then forall m :: n < m ==> !Admitted(s, r, m) else n == r.bytes
  }

  /** What `CreditAmount` decides before the reservation looks at the room of the budgets. */
  ghost predicate Offered(s: State, r: CreditRequest, n: int)
    requires r.term in s.terms && WellAsked(r) && ParentsReady(s, r)
  {
    if r.partial then AmountIs(s, r, n) else n == r.bytes && CeilingAdmits(s, r, n)
  }

  lemma AskedIsValid(r: CreditRequest)
    ensures ValidCredit(r) <==> WellAsked(r)
  {
    assert Members(r.parents) == set id | id in r.parents;
  }

  lemma IdsAreDrawn(s: State, r: CreditRequest, id: Id)
    requires r.term in s.terms
    ensures id in [s.terms[r.term].budget] + r.parents <==> Draws(s, r, id)
  {
  }

  lemma RowIsRelimited(s: State, r: CreditRequest, id: Id)
    requires id in s.budgets
    ensures Relimited(s.budgets, r.limits)[id] == s.budgets[id].(limit := LimitFor(s, r, id))
  {
  }

  /** The own budget is no parent, so relimiting leaves it alone. */
  lemma OwnIsKept(s: State, r: CreditRequest)
    requires r.term in s.terms && WellAsked(r) && ParentsReady(s, r)
    ensures Relimited(s.budgets, r.limits)[s.terms[r.term].budget] == s.budgets[s.terms[r.term].budget]
  {
    assert s.terms[r.term].budget !in r.limits;
  }

  /** The room of every budget drawn on, in the relimited rows. */
  ghost predicate RowsAdmit(budgets: map<Id, Budget>, ids: seq<Id>, n: int)
    requires forall id :: id in ids ==> id in budgets
  {
    forall id :: id in ids && !budgets[id].unlimited ==>
      budgets[id].used <= budgets[id].limit && budgets[id].used + budgets[id].reserved + n <= budgets[id].limit
  }

  lemma RowsAreAdmitted(s: State, r: CreditRequest, n: int)
    requires r.term in s.terms && WellAsked(r) && ParentsReady(s, r)
    ensures var ids := [s.terms[r.term].budget] + r.parents;
      (forall id :: id in ids ==> id in Relimited(s.budgets, r.limits))
      && (RowsAdmit(Relimited(s.budgets, r.limits), ids, n) <==> BudgetsAdmit(s, r, n))
  {
    var ids, rows := [s.terms[r.term].budget] + r.parents, Relimited(s.budgets, r.limits);
    if RowsAdmit(rows, ids, n) {
      forall id | id in s.budgets && Draws(s, r, id) && !s.budgets[id].unlimited
        ensures s.budgets[id].used <= LimitFor(s, r, id)
        ensures s.budgets[id].used + s.budgets[id].reserved + n <= LimitFor(s, r, id)
      {
        IdsAreDrawn(s, r, id);
        RowIsRelimited(s, r, id);
      }
    }
    if BudgetsAdmit(s, r, n) {
      forall id | id in ids && !rows[id].unlimited
        ensures rows[id].used <= rows[id].limit && rows[id].used + rows[id].reserved + n <= rows[id].limit
      {
        IdsAreDrawn(s, r, id);
        RowIsRelimited(s, r, id);
      }
    }
  }

  /** A partial amount: the least room, lowered to what the ceiling leaves. */
  lemma LeastRoomAdmits(budgets: map<Id, Budget>, ids: seq<Id>, bytes: int, n: int)
    requires forall id :: id in ids ==> id in budgets
    requires forall id :: id in ids && !budgets[id].unlimited ==> budgets[id].used <= budgets[id].limit
    ensures n <= LeastRoom(budgets, ids, bytes) <==> n <= bytes && RowsAdmit(budgets, ids, n)
  {
    LeastRoomIsLeast(budgets, ids, bytes);
  }

  /** What the ceiling admits, in the terms the source computes. */
  lemma CeilingMeans(own: Budget, grants: map<Id, Grant>, client: Id, r: CreditRequest, n: int)
    requires 1 <= n
    ensures BelowCeiling(own, grants, client, r, n) <==>
      (r.ceiling != 0 ==>
        var use := CeilingUse(own, grants, client, r.term);
        use.Ok? && use.value.0 <= r.ceiling && n <= r.ceiling - use.value.0 - use.value.1)
  {
  }

  ghost function AmountFor(s: State, r: CreditRequest): Result<int>
    requires r.term in s.terms && WellAsked(r) && ParentsReady(s, r)
  {
    var term := s.terms[r.term];
    CreditAmount(Relimited(s.budgets, r.limits), s.grants, [term.budget] + r.parents, term.budget, term.client, r)
  }

  /** Without parts, the amount is all that was asked, if the ceiling admits it. */
  lemma WholeIsWithin(budgets: map<Id, Budget>, grants: map<Id, Grant>, ids: seq<Id>, own: Id, client: Id,
      r: CreditRequest)
    requires own in budgets && (forall id :: id in ids ==> id in budgets) && !r.partial && 1 <= r.bytes
    ensures CreditAmount(budgets, grants, ids, own, client, r) ==
      if BelowCeiling(budgets[own], grants, client, r, r.bytes) then Ok(r.bytes) else Err(Error.Budget)
  {
    CeilingMeans(budgets[own], grants, client, r, r.bytes);
  }

  /** A part of a request is within the amount exactly when rows and ceiling have room for it. */
  lemma PartIsWithin(budgets: map<Id, Budget>, grants: map<Id, Grant>, ids: seq<Id>, own: Id, client: Id,
      r: CreditRequest, n: int)
    requires own in budgets && (forall id :: id in ids ==> id in budgets) && r.partial && 1 <= n
    ensures var given := CreditAmount(budgets, grants, ids, own, client, r);
      given.Ok? && n <= given.value <==>
        n <= r.bytes && RowsAdmit(budgets, ids, n) && BelowCeiling(budgets[own], grants, client, r, n)
  {
    CeilingMeans(budgets[own], grants, client, r, n);
    if forall id :: id in ids && !budgets[id].unlimited ==>
      budgets[id].used <= budgets[id].limit && budgets[id].reserved <= budgets[id].limit - budgets[id].used {
      LeastRoomAdmits(budgets, ids, r.bytes, n);
    }
  }

  /** The amount decided from rows: all of it below the ceiling, or the most there is room for. */
  ghost predicate AmountGiven(budgets: map<Id, Budget>, grants: map<Id, Grant>, ids: seq<Id>, own: Id, client: Id,
      r: CreditRequest, given: Result<int>)
    requires own in budgets && (forall id :: id in ids ==> id in budgets)
  {
    if r.partial then
      && (given.Ok? ==> 1 <= given.value)
      && forall n :: 1 <= n ==>
        (given.Ok? && n <= given.value <==>
          n <= r.bytes && RowsAdmit(budgets, ids, n) && BelowCeiling(budgets[own], grants, client, r, n))
    else
      && (given.Ok? <==> BelowCeiling(budgets[own], grants, client, r, r.bytes))
      && (given.Ok? ==> given.value == r.bytes)
  }

  lemma AmountIsGiven(budgets: map<Id, Budget>, grants: map<Id, Grant>, ids: seq<Id>, own: Id, client: Id,
      r: CreditRequest)
    requires own in budgets && (forall id :: id in ids ==> id in budgets) && 1 <= r.bytes
    ensures AmountGiven(budgets, grants, ids, own, client, r, CreditAmount(budgets, grants, ids, own, client, r))
  {
    if r.partial {
      forall n | 1 <= n
        ensures var given := CreditAmount(budgets, grants, ids, own, client, r);
          given.Ok? && n <= given.value <==>
            n <= r.bytes && RowsAdmit(budgets, ids, n) && BelowCeiling(budgets[own], grants, client, r, n)
      {
        PartIsWithin(budgets, grants, ids, own, client, r, n);
      }
    } else {
      WholeIsWithin(budgets, grants, ids, own, client, r);
    }
  }

  lemma WholeAmount(s: State, r: CreditRequest)
    requires r.term in s.terms && WellAsked(r) && ParentsReady(s, r) && !r.partial
    ensures AmountFor(s, r) == if CeilingAdmits(s, r, r.bytes) then Ok(r.bytes) else Err(Error.Budget)
  {
    var term := s.terms[r.term];
    OwnIsKept(s, r);
    WholeIsWithin(Relimited(s.budgets, r.limits), s.grants, [term.budget] + r.parents, term.budget, term.client, r);
  }

  /** A partial amount is admitted exactly up to the given one. */
  lemma PartialAmount(s: State, r: CreditRequest, n: int)
    requires r.term in s.terms && WellAsked(r) && ParentsReady(s, r) && r.partial && 1 <= n
    ensures Admitted(s, r, n) <==> AmountFor(s, r).Ok? && n <= AmountFor(s, r).value
  {
    var term := s.terms[r.term];
    RowsAreAdmitted(s, r, n);
    PartIsWithin(Relimited(s.budgets, r.limits), s.grants, [term.budget] + r.parents, term.budget, term.client, r, n);
    OwnIsKept(s, r);
  }

  lemma AmountIsOffered(s: State, r: CreditRequest, n: int)
    requires r.term in s.terms && WellAsked(r) && ParentsReady(s, r)
    ensures AmountFor(s, r) == Ok(n) <==> Offered(s, r, n)
  {
    if r.partial {
      forall m | 1 <= m ensures Admitted(s, r, m) <==> AmountFor(s, r).Ok? && m <= AmountFor(s, r).value {
        PartialAmount(s, r, m);
      }
      assert AmountFor(s, r).Ok? ==> 1 <= AmountFor(s, r).value && Admitted(s, r, AmountFor(s, r).value);
    } else {
      WholeAmount(s, r);
    }
  }

  /** The grant a credit goes to: the placement's current one for this term, or a new one. */
  function GrantAt(s: State, t: Target, term: Id): Id
  {
    if t.placement in s.placements && s.placements[t.placement].1 == term then s.placements[t.placement].0
    else t.newGrant
  }

  /** The placement names something to reserve for, and its grant, if there is one already, is the same. */
  ghost predicate CreditReady(s: State, r: CreditRequest, t: Target)
    requires r.term in s.terms
  {
    var id, client := GrantAt(s, t, r.term), s.terms[r.term].client;
    && t.ledgerOperation != 0 && id != 0 && t.node != 0 && t.installation != 0 && ValidRuntime(t.runtime)
    && client != 0 && s.terms[r.term].budget != 0
    && (id in s.grants ==>
      && var g := s.grants[id];
      && g.node == t.node && g.installation == t.installation && g.runtime == t.runtime && g.client == client
      && g.term == r.term && !g.unlimited && g.revision != MAX_INT64 && g.placement == Some(t.placement)
      && 0 <= g.issued && (forall b :: b in g.budgets <==> Draws(s, r, b)))
  }

  /** A new credit is given when there is an amount to give and the grant can take it. */
  ghost predicate MayCredit(s: State, r: CreditRequest, t: Target)
    requires r.term in s.terms && WellAsked(r)
  {
    && ParentsReady(s, r) && CreditReady(s, r, t)
    && exists n :: AmountIs(s, r, n) && IssuedTo(s, GrantAt(s, t, r.term)) + n <= MAX_INT64
  }

  ghost predicate GrantCredited(s: State, r: CreditRequest, t: Target, n: int, g: Grant)
    requires r.term in s.terms
  {
    var id := GrantAt(s, t, r.term);
    && g.issued == IssuedTo(s, id) + n
    && if id in s.grants then g == s.grants[id].(issued := g.issued, revision := s.grants[id].revision + 1)
       else
         && g == Grant(s.terms[r.term].client, r.term, t.node, t.installation, t.runtime, false, n, 0, 1,
           Some(t.placement), g.budgets)
         && forall b :: b in g.budgets <==> Draws(s, r, b)
  }

  /** The parents have their new limits and every limited budget drawn on the amount reserved. */
  predicate BudgetsCredited(s: State, now: map<Id, Budget>, r: CreditRequest, n: int)
    requires r.term in s.terms
  {
    && now.Keys == s.budgets.Keys
    && forall id :: id in s.budgets ==>
      now[id] == s.budgets[id].(limit := LimitFor(s, r, id),
        reserved := s.budgets[id].reserved + if Draws(s, r, id) && !s.budgets[id].unlimited then n else 0)
  }

  /** What a credit of an amount leaves: budgets, grant, placement and its two operations. */
  ghost predicate Credited(s: State, u: State, r: CreditRequest, t: Target, n: int, g: Grant)
    requires r.term in s.terms
  {
    && GrantCredited(s, r, t, n, g) && BudgetsCredited(s, u.budgets, r, n)
    && u == s.(budgets := u.budgets, grants := s.grants[GrantAt(s, t, r.term) := g],
      placements := s.placements[t.placement := (GrantAt(s, t, r.term), r.term)], operations := u.operations)
    && u.operations.Keys == s.operations.Keys + {r.operation, t.ledgerOperation}
    && u.operations[r.operation] == Operation(Credit(r), g)
    && forall id :: id in s.operations ==> u.operations[id] == s.operations[id]
  }

  predicate AskedAgain(p: Payload, r: CreditRequest)
  {
    p.Credit? && p.credit == r.(parents := p.credit.parents) && multiset(p.credit.parents) == multiset(r.parents)
  }

  /** The operation a credit derives for the ledger is its own. */
  predicate FreshOperation(s: State, r: CreditRequest, t: Target)
  {
    t.ledgerOperation !in s.operations && t.ledgerOperation != r.operation
  }

  /** A repeated credit gives the recorded grant back; a new one is given in full or, where a
      part will do, as far as budgets and ceiling admit; a refused one changes nothing. */
  ghost predicate CreditDone(s: State, u: State, r: CreditRequest, t: Target, guard: Check, inner: Check,
      g: Result<Grant>)
  {
    && (g.Err? ==> u == s)
    && (g.Ok? ==> WellAsked(r) && guard == Pass && r.term in s.terms)
    && (WellAsked(r) && guard == Pass && r.term in s.terms ==>
      if r.operation in s.operations then
        && (g.Ok? <==> AskedAgain(s.operations[r.operation].payload, r))
        && (g.Ok? ==> u == s && g.value == s.operations[r.operation].result)
      else if FreshOperation(s, r, t) then
        && (g.Ok? <==> inner == Pass && MayCredit(s, r, t))
        && (g.Ok? ==> exists n :: AmountIs(s, r, n) && Credited(s, u, r, t, n, g.value))
      else true)
  }

  lemma CreditIsPlanned(s: State, r: CreditRequest)
    requires r.term in s.terms && WellAsked(r) && ValidCredit(r)
    ensures PlanCredit(s, r).Ok? <==> ParentsReady(s, r) && AmountFor(s, r).Ok?
    ensures PlanCredit(s, r).Ok? ==> PlanCredit(s, r).value == (Relimited(s.budgets, r.limits), AmountFor(s, r).value)
  {
    var ids := [s.terms[r.term].budget] + r.parents;
    assert forall id :: id in r.parents ==> id in ids;
    assert s.terms[r.term].budget in ids;
    assert forall id :: id in r.parents ==> id in r.limits;
  }

  lemma DrawnIsWellFormed(s: State, r: CreditRequest, t: Target, n: int)
    requires r.term in s.terms && WellAsked(r) && ParentsReady(s, r) && 1 <= n <= r.bytes
    ensures WellFormed(Drawn(s, r, t, n)) <==>
      && t.ledgerOperation != 0 && GrantAt(s, t, r.term) != 0 && t.node != 0 && t.installation != 0
      && ValidRuntime(t.runtime) && s.terms[r.term].client != 0 && s.terms[r.term].budget != 0
  {
  }

  lemma DrawnHasRoom(s: State, r: CreditRequest, n: int, ids: seq<Id>)
    requires r.term in s.terms && WellAsked(r) && ParentsReady(s, r) && ids == [s.terms[r.term].budget] + r.parents
    ensures var rows := Relimited(s.budgets, r.limits);
      (forall id :: id in ids ==> id in rows && HasRoom(rows[id], n, false)) <==> BudgetsAdmit(s, r, n)
  {
    RowsAreAdmitted(s, r, n);
  }

  lemma DrawnGrantIsReady(s: State, q: ReserveRequest, r: CreditRequest, t: Target, n: int, rows: map<Id, Budget>)
    requires r.term in s.terms && q == Drawn(s, r, t, n)
    ensures GrantReady(Claimed(s, r, rows), q, Some(t.placement)) <==>
      (GrantAt(s, t, r.term) in s.grants ==>
        && var g := s.grants[GrantAt(s, t, r.term)];
        && g.node == t.node && g.installation == t.installation && g.runtime == t.runtime
        && g.client == s.terms[r.term].client && g.term == r.term && !g.unlimited && g.revision != MAX_INT64
        && g.placement == Some(t.placement) && (forall b :: b in g.budgets <==> Draws(s, r, b)))
  {
    forall id ensures id in q.budgets <==> Draws(s, r, id) {
      IdsAreDrawn(s, r, id);
    }
  }

  lemma DrawnIsReady(s: State, r: CreditRequest, t: Target, n: int)
    requires r.term in s.terms && WellAsked(r) && ParentsReady(s, r) && 1 <= n <= r.bytes
    ensures var q, rows := Drawn(s, r, t, n), Relimited(s.budgets, r.limits);
      WellFormed(q) && MayReserve(Claimed(s, r, rows), q, Some(t.placement)) <==>
        CreditReady(s, r, t) && BudgetsAdmit(s, r, n) && IssuedTo(s, GrantAt(s, t, r.term)) + n <= MAX_INT64
  {
    var q, rows := Drawn(s, r, t, n), Relimited(s.budgets, r.limits);
    DrawnIsWellFormed(s, r, t, n);
    DrawnHasRoom(s, r, n, q.budgets);
    DrawnGrantIsReady(s, q, r, t, n, rows);
    assert s.terms[r.term].budget in q.budgets;
  }

  lemma DrawnBudgets(s: State, now: map<Id, Budget>, r: CreditRequest, n: int, ids: seq<Id>)
    requires r.term in s.terms && ids == [s.terms[r.term].budget] + r.parents
    requires BytesReserved(Relimited(s.budgets, r.limits), now, ids, n)
    ensures BudgetsCredited(s, now, r, n)
  {
    forall id | id in s.budgets
      ensures now[id] == s.budgets[id].(limit := LimitFor(s, r, id),
        reserved := s.budgets[id].reserved + if Draws(s, r, id) && !s.budgets[id].unlimited then n else 0)
    {
      IdsAreDrawn(s, r, id);
      RowIsRelimited(s, r, id);
    }
  }

  lemma DrawnGrant(s: State, q: ReserveRequest, r: CreditRequest, t: Target, n: int, rows: map<Id, Budget>, g: Grant)
    requires r.term in s.terms && q == Drawn(s, r, t, n)
    requires GrantIssued(Claimed(s, r, rows), q, Some(t.placement), g)
    ensures GrantCredited(s, r, t, n, g)
  {
    forall id ensures id in q.budgets <==> Draws(s, r, id) {
      IdsAreDrawn(s, r, id);
    }
  }

  lemma DrawnIsCredited(s: State, r: CreditRequest, t: Target, n: int, reserved: State, g: Grant)
    requires r.term in s.terms && FreshOperation(s, r, t) && r.operation !in s.operations
    requires ReservedFor(Claimed(s, r, Relimited(s.budgets, r.limits)), reserved, Drawn(s, r, t, n),
      Some(t.placement), g)
    ensures Credited(s, reserved.(placements := reserved.placements[t.placement := (GrantAt(s, t, r.term), r.term)],
      operations := reserved.operations[r.operation := Operation(Credit(r), g)]), r, t, n, g)
  {
    var q, rows := Drawn(s, r, t, n), Relimited(s.budgets, r.limits);
    DrawnGrant(s, q, r, t, n, rows, g);
    DrawnBudgets(s, reserved.budgets, r, n, q.budgets);
  }

  /** The amount decided before the reservation and the room it then finds make the amount given. */
  lemma AmountDecides(s: State, r: CreditRequest, n: int)
    requires r.term in s.terms && WellAsked(r) && ParentsReady(s, r)
    ensures AmountIs(s, r, n) <==> AmountFor(s, r) == Ok(n) && BudgetsAdmit(s, r, n)
    ensures AmountFor(s, r) == Ok(n) ==> 1 <= n <= r.bytes
  {
    AmountIsOffered(s, r, n);
  }

  lemma CreditIsDecided(s: State, r: CreditRequest, t: Target)
    requires r.term in s.terms && WellAsked(r) && ParentsReady(s, r)
    ensures MayCredit(s, r, t) <==>
      && CreditReady(s, r, t) && AmountFor(s, r).Ok? && BudgetsAdmit(s, r, AmountFor(s, r).value)
      && IssuedTo(s, GrantAt(s, t, r.term)) + AmountFor(s, r).value <= MAX_INT64
  {
    if AmountFor(s, r).Ok? {
      AmountDecides(s, r, AmountFor(s, r).value);
    }
    if n :| AmountIs(s, r, n) && IssuedTo(s, GrantAt(s, t, r.term)) + n <= MAX_INT64 {
      AmountDecides(s, r, n);
    }
  }

  lemma OfferedCreditDoes(s: State, r: CreditRequest, t: Target, inner: Check, n: int)
    requires r.term in s.terms && WellAsked(r) && ValidCredit(r) && r.operation !in s.operations
    requires FreshOperation(s, r, t) && ParentsReady(s, r) && AmountFor(s, r) == Ok(n)
    ensures var g := ApplyCredit(s, r, t, inner);
      && (g.Ok? <==>
        && inner == Pass && CreditReady(s, r, t) && BudgetsAdmit(s, r, n)
        && IssuedTo(s, GrantAt(s, t, r.term)) + n <= MAX_INT64)
      && (g.Ok? ==> Credited(s, g.value.0, r, t, n, g.value.1))
  {
    CreditIsPlanned(s, r);
    AmountDecides(s, r, n);
    var q, claimed := Drawn(s, r, t, n), Claimed(s, r, Relimited(s.budgets, r.limits));
    ReserveDoes(claimed, q, Some(t.placement), Pass, inner);
    DrawnIsReady(s, r, t, n);
    var reserved := Reserve(claimed, q, Some(t.placement), Pass, inner);
    if reserved.Ok? {
      DrawnIsCredited(s, r, t, n, reserved.value.0, reserved.value.1);
    }
  }

  lemma NewCreditDoes(s: State, r: CreditRequest, t: Target, inner: Check)
    requires r.term in s.terms && WellAsked(r) && ValidCredit(r) && r.operation !in s.operations
    requires FreshOperation(s, r, t)
    ensures var g := ApplyCredit(s, r, t, inner);
      && (g.Ok? <==> inner == Pass && MayCredit(s, r, t))
      && (g.Ok? ==> exists n :: AmountIs(s, r, n) && Credited(s, g.value.0, r, t, n, g.value.1))
  {
    CreditIsPlanned(s, r);
    if ParentsReady(s, r) {
      CreditIsDecided(s, r, t);
      if AmountFor(s, r).Ok? {
        OfferedCreditDoes(s, r, t, inner, AmountFor(s, r).value);
        AmountDecides(s, r, AmountFor(s, r).value);
      }
    }
  }

  lemma CreditDoes(s: State, r: CreditRequest, t: Target, guard: Check, inner: Check)
    ensures var g := ReserveClientCredit(s, r, t, guard, inner);
      CreditDone(s, Left(g, s), r, t, guard, inner, Given(g))
  {
    AskedIsValid(r);
    if ValidCredit(r) && r.term in s.terms && r.operation !in s.operations && FreshOperation(s, r, t) {
      NewCreditDoes(s, r, t, inner);
    }
  }
}
