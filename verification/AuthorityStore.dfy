/** The store as the source writes it: tables updated in place, one method a
    transaction, loops over rows. Each method does exactly what the transaction
    of the same name in `Authority` says, or fails and changes nothing. */
module AuthorityStore {
  import opened Sums
  import opened MapSums
  import opened Rates
  import opened Results
  import opened Authority
  import opened AuthorityRuns
  import Effects = AuthorityEffects

  /** A list and a table of rates with the same true sums. */
  ghost predicate SameSums(list: seq<Rate>, table: map<Id, Rate>)
  {
    && Sum(list, UnlimitedOf) == MapSum(table, UnlimitedOf) && Sum(list, LimitedOf) == MapSum(table, LimitedOf)
    && Sum(list, BitsOf) == MapSum(table, BitsOf) && Sum(list, BurstOf) == MapSum(table, BurstOf)
  }

  lemma SameSumsGrow(list: seq<Rate>, table: map<Id, Rate>, id: Id, rate: Rate)
    requires SameSums(list, table) && id !in table
    ensures SameSums(list + [rate], table[id := rate])
  {
    SumsOfConcat(list, [rate]);
    MapSumWrite(table, id, rate, UnlimitedOf);
    MapSumWrite(table, id, rate, LimitedOf);
    MapSumWrite(table, id, rate, BitsOf);
    MapSumWrite(table, id, rate, BurstOf);
  }

  lemma SameSumsSkip(list: seq<Rate>, table: map<Id, Rate>, id: Id)
    requires SameSums(list, table) && id !in table
    ensures SameSums(list, table[id := BLOCKED])
  {
    MapSumWrite(table, id, BLOCKED, UnlimitedOf);
    MapSumWrite(table, id, BLOCKED, LimitedOf);
    MapSumWrite(table, id, BLOCKED, BitsOf);
    MapSumWrite(table, id, BLOCKED, BurstOf);
  }

  lemma SameSumsFit(bound: Rate, list: seq<Rate>, table: map<Id, Rate>)
    requires SameSums(list, table)
    ensures Fits(bound, list) <==> TableFits(bound, table)
  {
  }

  /** `shares` with exactly the acknowledged rows settled. */
  ghost predicate EntriesWritten(was: map<Id, Share>, now: map<Id, Share>, entries: map<Id, AuthorityEntry>)
  {
    now.Keys == was.Keys && forall id :: id in was ==> now[id] == if id in entries then Settled(was[id]) else was[id]
  }

  /** `stops` with each acknowledged entry's stop written or withdrawn. */
  ghost predicate StopsWritten(was: map<Id, Stop>, now: map<Id, Stop>, base: int, entries: map<Id, AuthorityEntry>)
  {
    forall id :: StopOf(now, id) == if id in entries
      then (if entries[id].enabled then None else Some(Stop(base, entries[id].revision))) else StopOf(was, id)
  }

  function StopOf(stops: map<Id, Stop>, id: Id): Option<Stop>
  {
    if id in stops then Some(stops[id]) else None
  }

  // ----- what the handlers keep -----

  /** The store a transaction leaves, whether or not it went through. */
  ghost function Left<T>(r: Result<(State, T)>, s: State): State
  {
    if r.Ok? then r.value.0 else s
  }

  /** No budget goes or goes back to an earlier revision, and everything but the budgets is as it was. */
  predicate BudgetsAdvance(s: State, t: State)
  {
    && t == s.(budgets := t.budgets)
    && forall b :: b in s.budgets ==>
      b in t.budgets && t.budgets[b].client == s.budgets[b].client && s.budgets[b].revision <= t.budgets[b].revision
  }

  lemma SetBudgetAdvances(s: State, id: Id, client: Id, term: Id, revision: int, desired: Pair)
    ensures BudgetsAdvance(s, Or(Authority.SetRateBudget(s, id, client, term, revision, desired), s))
  {
  }

  lemma SetBudgetServes(s: State, id: Id, client: Id, term: Id, revision: int, desired: Pair)
    ensures Serves(s, Or(Authority.SetRateBudget(s, id, client, term, revision, desired), s),
      OfRates(SetBudget(id, client, term, revision, desired)))
  {
    HandlerServes(s, OfRates(SetBudget(id, client, term, revision, desired)),
      Or(Authority.SetRateBudget(s, id, client, term, revision, desired), s));
  }

  lemma SetBudgetKeeps(s: State, id: Id, client: Id, term: Id, revision: int, desired: Pair)
    ensures var t := Or(Authority.SetRateBudget(s, id, client, term, revision, desired), s);
      BudgetsAdvance(s, t) && Serves(s, t, OfRates(SetBudget(id, client, term, revision, desired)))
  {
    SetBudgetServes(s, id, client, term, revision, desired);
    SetBudgetAdvances(s, id, client, term, revision, desired);
  }

  lemma ConfirmServes(s: State, node: Id, installation: Id, grant: Id, revision: int, applied: Pair)
    ensures Serves(s, Or(Authority.ConfirmRateShare(s, node, installation, grant, revision, applied), s),
      OfReport(Confirm(node, installation, grant, revision, applied)))
  {
    HandlerServes(s, OfReport(Confirm(node, installation, grant, revision, applied)),
      Or(Authority.ConfirmRateShare(s, node, installation, grant, revision, applied), s));
  }

  lemma ZeroStopServes(s: State, grant: Id, expected: Share)
    ensures Serves(s, Or(Authority.ZeroStopRateShare(s, grant, expected), s), OfRates(ZeroStop(grant, expected)))
  {
    HandlerServes(s, OfRates(ZeroStop(grant, expected)), Or(Authority.ZeroStopRateShare(s, grant, expected), s));
  }

  lemma CallServes(s: State, operation: Id, call: LifecycleCall, newTerm: Id, now: int)
    ensures Serves(s, Left(Lifecycle(s, operation, call, newTerm, now), s),
      OfClient(Call(operation, call, newTerm, now)))
  {
    HandlerServes(s, OfClient(Call(operation, call, newTerm, now)),
      Left(Lifecycle(s, operation, call, newTerm, now), s));
  }

  lemma WrittenEntries(was: map<Id, Share>, now: map<Id, Share>, entries: map<Id, AuthorityEntry>)
    requires EntriesWritten(was, now, entries)
    ensures now == was + EntryRows(was, entries)
  {
  }

  lemma WrittenStops(was: map<Id, Stop>, now: map<Id, Stop>, base: int, entries: map<Id, AuthorityEntry>)
    requires StopsWritten(was, now, base, entries)
    ensures now == EntryStops(was, base, entries)
  {
    forall id ensures id in now <==> id in EntryStops(was, base, entries) {
      assert StopOf(now, id).Some? <==> id in now;
    }
    forall id | id in now ensures now[id] == EntryStops(was, base, entries)[id] {
      assert StopOf(now, id) == Some(now[id]);
    }
  }

  class Store {
    var fenced: bool
    var nodes: map<Id, Node>
    var clients: map<Id, Client>
    var terms: map<Id, Term>
    var grants: map<Id, Grant>
    var budgets: map<Id, RateBudget>
    var shares: map<Id, Share>
    var stops: map<Id, Stop>
    var operations: map<Id, Operation>

    function View(): State
      reads this
    {
      State(fenced, nodes, clients, terms, grants, budgets, shares, stops, operations)
    }

    constructor ()
      ensures View() == State(false, map[], map[], map[], map[], map[], map[], map[], map[])
    {
      fenced, nodes, clients, terms, grants, budgets, shares, stops, operations := false, map[], map[], map[], map[],
        map[], map[], map[], map[];
    }

    method PutBudget(id: Id, client: Id, term: Id, revision: int, desired: Pair) returns (r: Result<()>)
      modifies this
      ensures match Authority.SetRateBudget(old(View()), id, client, term, revision, desired)
        case Ok(s) => r == Ok(()) && View() == s
        case Err(e) => r == Err(e) && View() == old(View())
    {
      if !(ValidId(id) && ValidId(client) && ValidId(term) && 0 < revision <= MAX_INT64 && ValidPair(desired)) {
        return Err(Invalid);
      }
      :- Need(!fenced, Recovery);
      var _ :- ManagedAuthority(View(), client, term, true);
      var incoming := RateBudget(client, term, revision, desired);
      var current := incoming;
      if id in budgets {
        current := budgets[id];
      }
      if current.client != client {
        return Err(Scope);
      }
      if current.revision > revision
        || (current.revision == revision && (current.desired != desired || current.term != term)) {
        return Err(Revision);
      }
      budgets := budgets[id := incoming];
      return Ok(());
    }

    method SetRateBudget(id: Id, client: Id, term: Id, revision: int, desired: Pair) returns (r: Result<()>)
      modifies this
      ensures match Authority.SetRateBudget(old(View()), id, client, term, revision, desired)
        case Ok(s) => r == Ok(()) && View() == s
        case Err(e) => r == Err(e) && View() == old(View())
      ensures Serves(old(View()), View(), OfRates(SetBudget(id, client, term, revision, desired)))
      ensures BudgetsAdvance(old(View()), View())
      ensures Effects.BudgetDone(old(View()), View(), id, client, term, revision, desired, r)
    {
      SetBudgetKeeps(View(), id, client, term, revision, desired);
      Effects.BudgetDoes(View(), id, client, term, revision, desired);
      r := PutBudget(id, client, term, revision, desired);
    }

    /** The outstanding rates a budget's shares count in one direction. */
    static method Collect(table: map<Id, Share>, budget: Id, d: Direction) returns (list: seq<Rate>)
      ensures SameSums(list, CountedRates(table, budget, d))
    {
      list := [];
      var todo := table.Keys;
      ghost var done: map<Id, Share> := map[];
      while todo != {}
        invariant todo <= table.Keys
        invariant done == map id | id in table && id !in todo :: table[id]
        invariant SameSums(list, CountedRates(done, budget, d))
      {
        var id :| id in todo;
        var share := table[id];
        assert CountedRates(done[id := share], budget, d) ==
          CountedRates(done, budget, d)[id := Counted(share, budget, d)];
        if share.budget == budget {
          SameSumsGrow(list, CountedRates(done, budget, d), id, InDirection(share.outstanding, d));
          list := list + [InDirection(share.outstanding, d)];
        } else {
          SameSumsSkip(list, CountedRates(done, budget, d), id);
        }
        todo, done := todo - {id}, done[id := share];
      }
      assert done == table;
    }

    /** One direction of the budget check: the other shares and the wider envelope. */
    method FitsSide(bound: Rate, budget: Id, id: Id, after: Share, d: Direction) returns (ok: bool)
      requires after.budget == budget
      ensures ok <==> TableFits(bound, CountedRates(shares[id := after], budget, d))
    {
      ghost var others := shares - {id};
      var list := Collect(shares - {id}, budget, d);
      assert CountedRates(shares[id := after], budget, d) ==
        CountedRates(others, budget, d)[id := InDirection(after.outstanding, d)];
      SameSumsGrow(list, CountedRates(others, budget, d), id, InDirection(after.outstanding, d));
      list := list + [InDirection(after.outstanding, d)];
      SameSumsFit(bound, list, CountedRates(shares[id := after], budget, d));
      ok := FitsRates(bound, list);
    }

    method FitsWith(bound: Pair, budget: Id, id: Id, after: Share) returns (ok: bool)
      requires after.budget == budget
      ensures ok <==> SharesFit(bound, shares[id := after], budget)
    {
      var up := FitsSide(bound.upload, budget, id, after, Upload);
      var down := FitsSide(bound.download, budget, id, after, Download);
      return up && down;
    }

    /** A request is answered from its record, or checked, put and recorded. */
    method PutShare(request: RateRequest, now: int) returns (r: Result<Share>)
      modifies this
      ensures match Authority.RequestRateShare(old(View()), request, now)
        case Ok(v) => r == Ok(v.1) && View() == v.0
        case Err(e) => r == Err(e) && View() == old(View())
    {
      if !ValidRequest(request) {
        return Err(Invalid);
      }
      :- Need(!fenced, Recovery);
      if request.operation in operations {
        var op := operations[request.operation];
        if op.RateOperation? && op.request == request {
          return Ok(op.share);
        }
        return Err(Conflict);
      }
      :- LockNode(View(), request.node, request.installation);
      var grant :- Lookup(grants, request.grant);
      var term :- ManagedAuthority(View(), grant.client, grant.term, false);
      var budget :- Lookup(budgets, request.budget);
      if grant.node != request.node || grant.installation != request.installation || grant.runtime != request.runtime
        || grant.client != budget.client {
        return Err(Scope);
      }
      var share := Share(request.budget, request.node, request.installation, request.runtime, 0, 0, ZERO, ZERO);
      if request.grant in shares && shares[request.grant].budget == request.budget {
        share := shares[request.grant];
        if share.node != request.node || share.installation != request.installation
          || share.runtime != request.runtime {
          return Err(Scope);
        }
      }
      var outstanding := EnvelopePair(share.outstanding, request.desired);
      var after := share.(revision := share.revision + 1, desired := request.desired, outstanding := outstanding);
      if outstanding != share.outstanding {
        if grant.term != budget.term {
          return Err(Scope);
        }
        if term.Some? {
          if Expired(term.value.expires, now) {
            return Err(Scope);
          }
          var _ :- ManagedAuthority(View(), grant.client, grant.term, true);
        }
        var fits := FitsWith(budget.desired, request.budget, request.grant, after);
        if !fits {
          return Err(Error.Budget);
        }
      }
      if share.revision == MAX_INT64 {
        return Err(Revision);
      }
      if request.grant in shares && shares[request.grant].budget != request.budget {
        return Err(Scope);
      }
      shares := shares[request.grant := after];
      operations := operations[request.operation := RateOperation(request, after)];
      return Ok(after);
    }

    method RequestRateShare(request: RateRequest, now: int) returns (r: Result<Share>)
      modifies this
      ensures match Authority.RequestRateShare(old(View()), request, now)
        case Ok(v) => r == Ok(v.1) && View() == v.0
        case Err(e) => r == Err(e) && View() == old(View())
      ensures Effects.RequestDone(old(View()), View(), request, now, r)
      ensures r.Ok? && request.operation !in old(operations) ==>
        && request.grant in shares && r.value == shares[request.grant]
        && shares[request.grant].desired == request.desired
    {
      Effects.RequestDoes(View(), request, now);
      r := PutShare(request, now);
    }

    method ConfirmRateShare(node: Id, installation: Id, grant: Id, revision: int, applied: Pair) returns (r: Result<()>)
      modifies this
      ensures match Authority.ConfirmRateShare(old(View()), node, installation, grant, revision, applied)
        case Ok(s) => r == Ok(()) && View() == s
        case Err(e) => r == Err(e) && View() == old(View())
      ensures Effects.ConfirmDone(old(View()), View(), node, installation, grant, revision, applied, r)
      ensures Serves(old(View()), View(), OfReport(Confirm(node, installation, grant, revision, applied)))
      ensures r.Ok? ==>
        grant in shares && shares[grant].outstanding == applied
        && shares[grant].applied == shares[grant].revision == revision
    {
      ConfirmServes(View(), node, installation, grant, revision, applied);
      Effects.ConfirmDoes(View(), node, installation, grant, revision, applied);
      if !(ValidId(grant) && 0 < revision <= MAX_INT64 && ValidPair(applied)) {
        return Err(Invalid);
      }
      :- Need(!fenced, Recovery);
      :- LockNode(View(), node, installation);
      var share :- Lookup(shares, grant);
      if share.node != node || share.installation != installation {
        return Err(Scope);
      }
      var _ :- Lookup(budgets, share.budget);
      if share.revision != revision || share.desired != applied {
        return Err(Revision);
      }
      shares := shares[grant := share.(applied := revision, outstanding := applied)];
      return Ok(());
    }

    /** Whether a budget was lowered below what is still outstanding against it. */
    method RateBudgetPending(budgetId: Id) returns (r: Result<bool>)
      ensures r.Ok? <==> ValidId(budgetId) && budgetId in budgets
      ensures r.Ok? ==> (r.value <==> !SharesFit(budgets[budgetId].desired, shares, budgetId))
    {
      if !ValidId(budgetId) {
        return Err(Invalid);
      }
      var budget :- Lookup(budgets, budgetId);
      var uploads := Collect(shares, budgetId, Upload);
      var downloads := Collect(shares, budgetId, Download);
      SameSumsFit(budget.desired.upload, uploads, CountedRates(shares, budgetId, Upload));
      SameSumsFit(budget.desired.download, downloads, CountedRates(shares, budgetId, Download));
      var up := FitsRates(budget.desired.upload, uploads);
      var down := FitsRates(budget.desired.download, downloads);
      return Ok(!up || !down);
    }

    /** Every claim of an applied deployment is checked, and the rows it settles collected. */
    method CheckClaims(node: Id, installation: Id, claims: map<Id, RateClaim>)
        returns (ok: bool, changed: map<Id, Share>)
      ensures ok <==> ConfigurationMatches(View(), node, installation, claims)
      ensures ok ==> changed == SettledRows(shares, claims)
    {
      var todo := claims.Keys;
      changed := map[];
      while todo != {}
        invariant todo <= claims.Keys
        invariant ConfigurationMatches(View(), node, installation, claims - todo)
        invariant changed == SettledRows(shares, claims - todo)
      {
        var id :| id in todo;
        var claim := claims[id];
        if claim.revision != 0 {
          if id !in shares || shares[id].node != node || shares[id].installation != installation
            || shares[id].runtime != claim.runtime {
            return false, changed;
          }
          var share := shares[id];
          if share.revision == claim.revision {
            if share.desired != claim.rates || share.budget !in budgets {
              return false, changed;
            }
            changed := changed[id := share.(applied := share.revision, outstanding := share.desired)];
          }
        }
        todo := todo - {id};
      }
      assert claims - todo == claims;
      return true, changed;
    }

    /** An applied deployment: check every claim, collect the changed rows, then write them. */
    method AcknowledgeConfiguration(node: Id, installation: Id, claims: map<Id, RateClaim>) returns (r: Result<()>)
      modifies this
      ensures match Authority.AcknowledgeConfiguration(old(View()), node, installation, claims)
        case Ok(s) => r == Ok(()) && View() == s
        case Err(e) => r == Err(e) && View() == old(View())
      ensures Effects.ConfigurationDone(old(View()), View(), node, installation, claims, r)
    {
      Effects.ConfigurationDoes(View(), node, installation, claims);
      var ok, changed := CheckClaims(node, installation, claims);
      if !ok {
        return Err(Scope);
      }
      shares := shares + changed;
      return Ok(());
    }

    method CheckEntries(node: Id, installation: Id, entries: map<Id, AuthorityEntry>) returns (ok: bool)
      ensures ok <==> EntriesMatch(View(), node, installation, entries)
    {
      var todo := entries.Keys;
      while todo != {}
        invariant todo <= entries.Keys
        invariant EntriesMatch(View(), node, installation, entries - todo)
      {
        var id :| id in todo;
        var entry := entries[id];
        if id !in shares || entry.client !in budgets || shares[id].node != node
          || shares[id].installation != installation || shares[id].runtime != entry.runtime
          || shares[id].budget != entry.client || shares[id].revision != entry.revision
            || shares[id].desired != entry.rates || (!entry.enabled && entry.rates != ZERO) {
          return false;
        }
        todo := todo - {id};
      }
      assert entries - todo == entries;
      return true;
    }

    /** One acknowledged entry: settle its share, write or withdraw its stop. */
    method WriteEntry(id: Id, base: int, entry: AuthorityEntry)
      requires id in shares
      modifies `shares, `stops
      ensures shares == old(shares)[id := Settled(old(shares)[id])]
      ensures stops == if entry.enabled then old(stops) - {id} else old(stops)[id := Stop(base, entry.revision)]
    {
      var share := shares[id];
      shares := shares[id := share.(applied := share.revision, outstanding := share.desired)];
      if !entry.enabled {
        stops := stops[id := Stop(base, entry.revision)];
      } else {
        stops := stops - {id};
      }
    }

    method WriteEntries(base: int, entries: map<Id, AuthorityEntry>)
      requires entries.Keys <= shares.Keys
      modifies `shares, `stops
      ensures shares == old(shares) + EntryRows(old(shares), entries)
      ensures stops == EntryStops(old(stops), base, entries)
    {
      var todo := entries.Keys;
      while todo != {}
        invariant todo <= entries.Keys
        invariant EntriesWritten(old(shares), shares, entries - todo)
        invariant StopsWritten(old(stops), stops, base, entries - todo)
      {
        var id :| id in todo;
        WriteEntry(id, base, entries[id]);
        todo := todo - {id};
      }
      WrittenEntries(old(shares), shares, entries);
      WrittenStops(old(stops), stops, base, entries);
    }

    /** Acknowledged authority updates settle their shares and write or clear their stops. */
    method AcknowledgeAuthority(node: Id, installation: Id, base: int, entries: map<Id, AuthorityEntry>)
        returns (r: Result<()>)
      modifies this
      ensures match Authority.AcknowledgeAuthority(old(View()), node, installation, base, entries)
        case Ok(s) => r == Ok(()) && View() == s
        case Err(e) => r == Err(e) && View() == old(View())
      ensures Effects.AuthorityDone(old(View()), View(), node, installation, base, entries, r)
    {
      Effects.AuthorityDoes(View(), node, installation, base, entries);
      var ok := CheckEntries(node, installation, entries);
      if !ok {
        return Err(Revision);
      }
      WriteEntries(base, entries);
      return Ok(());
    }

    method ZeroStopRateShare(grant: Id, expected: Share) returns (r: Result<()>)
      modifies this
      ensures match Authority.ZeroStopRateShare(old(View()), grant, expected)
        case Ok(s) => r == Ok(()) && View() == s
        case Err(e) => r == Err(e) && View() == old(View())
      ensures Effects.ZeroStopDone(old(View()), View(), grant, expected, r)
      ensures Serves(old(View()), View(), OfRates(ZeroStop(grant, expected)))
      ensures forall id :: id in old(shares) ==> id in shares && shares[id].outstanding == old(shares)[id].outstanding
    {
      ZeroStopServes(View(), grant, expected);
      Effects.ZeroStopDoes(View(), grant, expected);
      var g :- Lookup(grants, grant);
      var client :- Lookup(clients, g.client);
      if !client.owned {
        return Err(Scope);
      }
      var pool :- Lookup(budgets, expected.budget);
      if pool.client != g.client {
        return Err(NotFound);
      }
      var share :- Lookup(shares, grant);
      if share != expected || share.revision == MAX_INT64 {
        return Err(Revision);
      }
      shares := shares[grant := share.(revision := share.revision + 1, desired := ZERO)];
      return Ok(());
    }

    method RecordStoppedGrants(node: Id, deployment: int, claims: map<Id, StopClaim>)
      modifies this
      ensures View() == Authority.RecordStoppedGrants(old(View()), node, deployment, claims)
      ensures Effects.StopsDone(old(View()), View(), node, deployment, claims)
    {
      var todo := claims.Keys;
      var recorded: map<Id, Stop> := map[];
      ghost var done: map<Id, StopClaim> := map[];
      while todo != {}
        invariant todo <= claims.Keys
        invariant done.Keys == claims.Keys - todo && forall id :: id in done ==> done[id] == claims[id]
        invariant recorded == StopRows(shares, node, deployment, done)
      {
        var id :| id in todo;
        if id in shares && ProvesStop(shares[id], node, claims[id]) {
          recorded := recorded[id := Stop(deployment, shares[id].revision)];
        }
        todo, done := todo - {id}, done[id := claims[id]];
      }
      assert done == claims;
      stops := stops + recorded;
      Effects.StopsDoes(old(View()), node, deployment, claims);
    }

    /** The drain gate: every grant of the term is checked, the first open one refuses. */
    method RequireStoppedGrants(client: Id, term: Id) returns (ok: bool)
      ensures ok <==> Stopped(View(), client, term)
    {
      var todo := grants.Keys;
      while todo != {}
        invariant todo <= grants.Keys
        invariant forall id :: id in grants && id !in todo && grants[id].client == client && grants[id].term == term ==>
          GrantStopped(View(), id, client)
      {
        var id :| id in todo;
        if grants[id].client == client && grants[id].term == term {
          if id !in shares || id !in stops {
            return false;
          }
          var share, stop := shares[id], stops[id];
          if share.budget != client || stop.deployment == 0 || stop.rate > share.applied || share.outstanding != ZERO {
            return false;
          }
        }
        todo := todo - {id};
      }
      return true;
    }

    method ActivateRatePool(client: Id, termId: Id, term: Term) returns (r: Result<()>)
      modifies this
      ensures match Authority.ActivateRatePool(old(View()), client, termId, term)
        case Ok(s) => r == Ok(()) && View() == s
        case Err(e) => r == Err(e) && View() == old(View())
    {
      var revision := if client in budgets then budgets[client].revision else 0;
      if revision == MAX_INT64 {
        return Err(Revision);
      }
      r := PutBudget(client, client, termId, revision + 1, term.rates);
    }

    /** Puts the client and term tables back: the transaction failed after writing them. */
    method RollBack(clients: map<Id, Client>, terms: map<Id, Term>)
      modifies this
      ensures View() == old(View()).(clients := clients, terms := terms)
    {
      this.clients, this.terms := clients, terms;
    }

    /** The highest number among a client's terms. */
    method HighestNumber(client: Id) returns (last: int)
      ensures last == NumberOf(terms, client)
    {
      last := 0;
      var todo := terms.Keys;
      while todo != {}
        invariant todo <= terms.Keys && 0 <= last
        invariant forall id :: id in terms && id !in todo && terms[id].client == client ==> terms[id].number <= last
        invariant last == 0 || exists id :: id in terms && terms[id].client == client && terms[id].number == last
      {
        var id :| id in todo;
        if terms[id].client == client && terms[id].number > last {
          last := terms[id].number;
        }
        todo := todo - {id};
      }
      NumberIsLast(terms, client);
    }

    method StartFirst(call: LifecycleCall, client: Client, number: int, newTerm: Id, now: int)
        returns (r: Result<TransitionResult>)
      requires call.Transition?
      modifies this
      ensures match Authority.StartFirst(old(View()), call, client, number, newTerm, now)
        case Ok(v) => r == Ok(v.1) && View() == v.0
        case Err(e) => r == Err(e) && View() == old(View())
    {
      if client.current.Some? {
        return Err(Conflict);
      }
      var term :- StartTerm(NewTerm(call, client, number), now);
      var clients0, terms0 := clients, terms;
      var owner := client.(current := Some(newTerm), revision := client.revision + 1);
      terms := terms[newTerm := term];
      clients := clients[call.client := owner];
      var pool := ActivateRatePool(call.client, newTerm, term);
      if pool.Err? {
        RollBack(clients0, terms0);
        return Err(pool.error);
      }
      return Ok(TransitionResult(owner, newTerm, term, false));
    }

    method StartSuccessor(call: LifecycleCall, client: Client, number: int, newTerm: Id, now: int)
        returns (r: Result<TransitionResult>)
      requires call.Transition?
      modifies this
      ensures match Authority.StartSuccessor(old(View()), call, client, number, newTerm, now)
        case Ok(v) => r == Ok(v.1) && View() == v.0
        case Err(e) => r == Err(e) && View() == old(View())
    {
      if client.current.None? {
        return Err(Scope);
      }
      var previous :- Lookup(terms, client.current.value);
      if previous.client != call.client {
        return Err(NotFound);
      }
      if previous.state != Active || previous.number == MAX_INT64
        || (call.kind == Renewal && (previous.expires == 0 || previous.expires > now)) {
        return Err(Revision);
      }
      var term := NewTerm(call, client, number).(predecessor := client.current, state := Pending);
      if call.kind == TrafficReset {
        term := term.(expires := previous.expires);
      }
      terms := terms[client.current.value := previous.(state := Draining)];
      terms := terms[newTerm := term];
      var owner := client.(pending := Some(newTerm), revision := client.revision + 1);
      clients := clients[call.client := owner];
      return Ok(TransitionResult(owner, newTerm, term, true));
    }

    method Transition(call: LifecycleCall, newTerm: Id, now: int) returns (r: Result<TransitionResult>)
      requires call.Transition?
      modifies this
      ensures match ApplyTransition(old(View()), call, newTerm, now)
        case Ok(v) => r == Ok(v.1) && View() == v.0
        case Err(e) => r == Err(e) && View() == old(View())
      ensures ValidId(newTerm) && ValidCall(call) && !old(fenced) ==>
        Effects.CallDecided(old(View()), View(), call, newTerm, now, r)
    {
      if ValidId(newTerm) && ValidCall(call) && !fenced {
        Effects.CallDoes(View(), call, newTerm, now);
      }
      var client :- LockTransition(View(), call);
      var last := HighestNumber(call.client);
      r := StartNumbered(call, client, last, newTerm, now);
    }

    method StartNumbered(call: LifecycleCall, client: Client, last: int, newTerm: Id, now: int)
        returns (r: Result<TransitionResult>)
      requires call.Transition?
      modifies this
      ensures match Authority.StartNumbered(old(View()), call, client, last, newTerm, now)
        case Ok(v) => r == Ok(v.1) && View() == v.0
        case Err(e) => r == Err(e) && View() == old(View())
    {
      if last == MAX_INT64 {
        return Err(Revision);
      }
      if call.kind == Activation {
        r := StartFirst(call, client, last + 1, newTerm, now);
      } else {
        r := StartSuccessor(call, client, last + 1, newTerm, now);
      }
    }

    method CompleteTransition(call: LifecycleCall, now: int) returns (r: Result<TransitionResult>)
      requires call.Complete?
      modifies this
      ensures match ApplyComplete(old(View()), call, now)
        case Ok(v) => r == Ok(v.1) && View() == v.0
        case Err(e) => r == Err(e) && View() == old(View())
      ensures ValidCall(call) && !old(fenced) ==>
        Effects.CallDecided(old(View()), View(), call, call.pendingTerm, now, r)
    {
      if ValidCall(call) && !fenced {
        Effects.CallDoes(View(), call, call.pendingTerm, now);
      }
      var locked :- LockPending(View(), call);
      var (client, term, previousId, previous) := locked;
      if term.policy != call.policy {
        return Err(Revision);
      }
      var pool :- Lookup(budgets, call.client);
      if pool.client != call.client {
        return Err(NotFound);
      }
      var stopped := RequireStoppedGrants(call.client, previousId);
      if !stopped {
        return Err(Drain);
      }
      var started :- StartTerm(term, now);
      r := HandOver(call, client, started, previousId, previous);
    }

    method HandOver(call: LifecycleCall, client: Client, started: Term, previousId: Id, previous: Term)
        returns (r: Result<TransitionResult>)
      requires call.Complete?
      modifies this
      ensures match Authority.HandOver(old(View()), call, client, started, previousId, previous)
        case Ok(v) => r == Ok(v.1) && View() == v.0
        case Err(e) => r == Err(e) && View() == old(View())
    {
      var term := started.(state := Active, generation := client.generation);
      var clients0, terms0 := clients, terms;
      terms := terms[call.pendingTerm := term];
      terms := terms[previousId := previous.(state := Closed)];
      var owner := client.(current := Some(call.pendingTerm), pending := None, revision := client.revision + 1);
      clients := clients[call.client := owner];
      assert View() == old(View()).(clients := clients, terms := terms);
      var activated := ActivateRatePool(call.client, call.pendingTerm, term);
      if activated.Err? {
        RollBack(clients0, terms0);
        return Err(activated.error);
      }
      return Ok(TransitionResult(owner, call.pendingTerm, term, false));
    }

    method CancelTransition(call: LifecycleCall) returns (r: Result<TransitionResult>)
      requires call.Cancel?
      modifies this
      ensures match ApplyCancel(old(View()), call)
        case Ok(v) => r == Ok(v.1) && View() == v.0
        case Err(e) => r == Err(e) && View() == old(View())
      ensures ValidCall(call) && !old(fenced) ==>
        Effects.CallDecided(old(View()), View(), call, call.pendingTerm, 0, r)
    {
      if ValidCall(call) && !fenced {
        Effects.CallDoes(View(), call, call.pendingTerm, 0);
      }
      var locked :- LockPending(View(), call);
      var (client, term, previousId, previous) := locked;
      terms := terms[call.pendingTerm := term.(state := Closed)];
      previous := previous.(state := Active);
      terms := terms[previousId := previous];
      client := client.(pending := None, revision := client.revision + 1);
      clients := clients[call.client := client];
      return Ok(TransitionResult(client, previousId, previous, false));
    }

    method ApplyCall(call: LifecycleCall, newTerm: Id, now: int) returns (r: Result<TransitionResult>)
      modifies this
      ensures match Apply(old(View()), call, newTerm, now)
        case Ok(v) => r == Ok(v.1) && View() == v.0
        case Err(e) => r == Err(e) && View() == old(View())
      ensures ValidId(newTerm) && ValidCall(call) && !old(fenced) ==>
        Effects.CallDecided(old(View()), View(), call, newTerm, now, r)
    {
      if ValidId(newTerm) && ValidCall(call) && !fenced {
        Effects.CallDoes(View(), call, newTerm, now);
      }
      match call
      case Transition(_, _, _, _, _, _, _) => r := Transition(call, newTerm, now);
      case Complete(_, _, _, _, _) => r := CompleteTransition(call, now);
      case Cancel(_, _, _, _) => r := CancelTransition(call);
    }

    method RunOperation(operation: Id, call: LifecycleCall, newTerm: Id, now: int)
        returns (r: Result<TransitionResult>)
      modifies this
      ensures match Lifecycle(old(View()), operation, call, newTerm, now)
        case Ok(v) => r == Ok(v.1) && View() == v.0
        case Err(e) => r == Err(e) && View() == old(View())
    {
      if !ValidCall(call) {
        return Err(Invalid);
      }
      :- Need(ValidId(operation), Invalid);
      :- Need(!fenced, Recovery);
      if operation in operations {
        var op := operations[operation];
        if op.LifecycleOperation? && op.call == call {
          return Ok(op.result);
        }
        return Err(Conflict);
      }
      var result :- ApplyCall(call, newTerm, now);
      ghost var applied := View();
      operations := operations[operation := Operation.LifecycleOperation(call, result)];
      assert View() == applied.(operations := operations);
      return Ok(result);
    }

    /** Runs one lifecycle call under its operation id. */
    method LifecycleOperation(operation: Id, call: LifecycleCall, newTerm: Id, now: int)
        returns (r: Result<TransitionResult>)
      modifies this
      ensures match Lifecycle(old(View()), operation, call, newTerm, now)
        case Ok(v) => r == Ok(v.1) && View() == v.0
        case Err(e) => r == Err(e) && View() == old(View())
      ensures ValidId(newTerm) ==> Effects.LifecycleDone(old(View()), View(), operation, call, newTerm, now, r)
      ensures Serves(old(View()), View(), OfClient(Call(operation, call, newTerm, now)))
    {
      CallServes(View(), operation, call, newTerm, now);
      if ValidId(newTerm) {
        Effects.LifecycleDoes(View(), operation, call, newTerm, now);
      }
      r := RunOperation(operation, call, newTerm, now);
    }
  }
}
