/** Every interleaving of store transactions and late node applies. The world adds
    to the store what each node was ever told and which revision it enforces now. */
module AuthorityRuns {
  import opened Rates
  import opened Results
  import opened Authority

  /** `issued[g][r]` is the rate pair share `g` carried at revision `r`;
      `enforced[g]` is the revision its node applied last, 0 before the first. */
  datatype World = World(store: State, issued: map<Id, seq<Pair>>, enforced: map<Id, nat>)

  /** Transactions that change budgets and shares. */
  datatype RateEvent =
    | SetBudget(id: Id, client: Id, term: Id, revision: int, desired: Pair)
    | Request(request: RateRequest, now: int)
    | ZeroStop(grant: Id, expected: Share)

  /** Transactions that settle shares and record stops from what nodes report. */
  datatype ReportEvent =
    | Confirm(node: Id, installation: Id, grant: Id, revision: int, applied: Pair)
    | Acknowledge(node: Id, installation: Id, claims: map<Id, RateClaim>)
    | AcknowledgeUpdates(node: Id, installation: Id, base: int, entries: map<Id, AuthorityEntry>)
    | RecordStops(node: Id, deployment: int, stopped: map<Id, StopClaim>)
    | ClearStops(ids: set<Id>)

  /** Transactions on clients, terms and grants, and edits of the node table. */
  datatype ClientEvent =
    | Call(operation: Id, call: LifecycleCall, newTerm: Id, now: int)
    | Reserve(id: Id, reserved: Grant, ownBudget: bool, placement: bool, now: int)
    | BindClient(id: Id, revision: int, generation: int)
    | EditClient(id: Id, panel: bool, owned: bool, revision: int, generation: int)
    | EditNodes(nodes: map<Id, Node>, fenced: bool)

  datatype Event =
    | OfRates(rate: RateEvent)
    | OfReport(report: ReportEvent)
    | OfClient(client: ClientEvent)
    | NodeApply(grant: Id, applies: nat)

  /** A failed transaction changes nothing. */
  function Or(r: Result<State>, s: State): State
  {
    if r.Ok? then r.value else s
  }

  ghost function AfterRate(s: State, e: RateEvent): State
  {
    match e
    case SetBudget(id, client, term, revision, desired) => Or(SetRateBudget(s, id, client, term, revision, desired), s)
    case Request(request, now) => (match RequestRateShare(s, request, now) case Ok(v) => v.0 case Err(_) => s)
    case ZeroStop(grant, expected) => Or(ZeroStopRateShare(s, grant, expected), s)
  }

  ghost function AfterReport(s: State, e: ReportEvent): State
  {
    match e
    case Confirm(node, installation, grant, revision, applied) =>
      Or(ConfirmRateShare(s, node, installation, grant, revision, applied), s)
    case Acknowledge(node, installation, claims) => Or(AcknowledgeConfiguration(s, node, installation, claims), s)
    case AcknowledgeUpdates(node, installation, base, entries) =>
      Or(AcknowledgeAuthority(s, node, installation, base, entries), s)
    case RecordStops(node, deployment, stopped) => RecordStoppedGrants(s, node, deployment, stopped)
    case ClearStops(ids) => s.(stops := s.stops - ids)
  }

  ghost function AfterClient(s: State, e: ClientEvent): State
  {
    match e
    case Call(operation, call, newTerm, now) =>
      (match Lifecycle(s, operation, call, newTerm, now) case Ok(v) => v.0 case Err(_) => s)
    case Reserve(id, reserved, ownBudget, placement, now) =>
      Or(ReserveGrant(s, id, reserved, ownBudget, placement, now), s)
    case BindClient(id, revision, generation) =>
      s.(clients := s.clients[id := Client(true, false, revision, generation, None, None)])
    case EditClient(id, panel, owned, revision, generation) =>
      if id in s.clients
      then s.(clients := s.clients[id :=
        s.clients[id].(panel := panel, owned := owned, revision := revision, generation := generation)])
      else s
    case EditNodes(nodes, fenced) => s.(nodes := nodes, fenced := fenced)
  }

  ghost function StoreAfter(s: State, e: Event): State
  {
    match e
    case OfRates(rate) => AfterRate(s, rate)
    case OfReport(report) => AfterReport(s, report)
    case OfClient(client) => AfterClient(s, client)
    case NodeApply(_, _) => s
  }

  /** A node reports only what it applied. */
  predicate HonestReport(w: World, e: ReportEvent)
  {
    match e
    case Confirm(_, _, grant, revision, _) => grant in w.enforced ==> revision <= w.enforced[grant]
    case Acknowledge(_, _, claims) => forall id :: id in claims && id in w.enforced ==>
      claims[id].revision <= w.enforced[id]
    case AcknowledgeUpdates(_, _, _, entries) => forall id :: id in entries && id in w.enforced ==>
      entries[id].revision <= w.enforced[id]
    case _ => true
  }

  /** New ids were never used before. */
  predicate FreshIds(s: State, e: ClientEvent)
  {
    match e
    case Call(_, _, newTerm, _) => ValidId(newTerm) && newTerm !in s.terms
    case BindClient(id, _, _) => UnusedClient(s, id)
    case _ => true
  }

  /** A node applies any revision issued to it, never goes back, and reports only what it applied. */
  predicate Honest(w: World, e: Event)
  {
    match e
    case OfRates(_) => true
    case OfReport(report) => HonestReport(w, report)
    case OfClient(client) => FreshIds(w.store, client)
    case NodeApply(grant, applies) => grant in w.enforced && w.enforced[grant] <= applies < |History(w.issued, grant)|
  }

  function History(issued: map<Id, seq<Pair>>, id: Id): seq<Pair>
  {
    if id in issued then issued[id] else [ZERO]
  }

  /** Whatever revision a transaction wrote is from then on known to the node. */
  function Issue(before: State, after: State, issued: map<Id, seq<Pair>>): map<Id, seq<Pair>>
  {
    map id | id in after.shares ::
      if id in before.shares && before.shares[id].revision == after.shares[id].revision then History(issued, id)
      else History(issued, id) + [after.shares[id].desired]
  }

  /** The world once a transaction left the store at `t`. */
  function Advance(w: World, t: State): World
  {
    World(t, Issue(w.store, t, w.issued), map id | id in t.shares :: Enforced(w, id))
  }

  ghost function Next(w: World, e: Event): World
  {
    if e.NodeApply? then w.(enforced := w.enforced[e.grant := e.applies]) else Advance(w, StoreAfter(w.store, e))
  }

  // ----- the invariant -----

  /** A share's outstanding rate covers everything its node may still enforce: the
      rates of every revision from the enforced one on. */
  ghost predicate Covered(share: Share, history: seq<Pair>, enforced: nat)
  {
    && 0 <= share.applied <= enforced <= share.revision
    && |history| == share.revision + 1 && history[0] == ZERO && history[share.revision] == share.desired
    && ValidPair(share.outstanding)
    && (forall r :: 0 <= r < |history| ==> ValidPair(history[r]))
    && (forall r :: enforced <= r < |history| ==> CoversPair(share.outstanding, history[r]))
  }

  ghost predicate ShareOk(w: World, id: Id)
  {
    && id in w.store.shares && id in w.issued && id in w.enforced && id in w.store.grants
    && Covered(w.store.shares[id], w.issued[id], w.enforced[id])
    && w.store.shares[id].budget in w.store.budgets
      && w.store.budgets[w.store.shares[id].budget].client == w.store.grants[id].client
  }

  /** The current and pending pointers of a client name terms in the matching states. */
  predicate ClientOk(s: State, id: Id)
  {
    id in s.clients ==>
      var client := s.clients[id];
      match client.pending
      case Some(p) =>
        && client.current.Some? && client.current.value != p && p in s.terms && client.current.value in s.terms
        && s.terms[p].client == id && s.terms[p].state == Pending && s.terms[p].predecessor == client.current
        && s.terms[client.current.value].client == id && s.terms[client.current.value].state == Draining
      case None =>
        client.current.Some? ==>
          client.current.value in s.terms && s.terms[client.current.value].client == id
          && s.terms[client.current.value].state == Active
  }

  /** An unclosed term is the one its client points at, and a term that took over has a closed predecessor. */
  predicate TermOk(s: State, id: Id)
  {
    id in s.terms ==>
      var term := s.terms[id];
      && term.client in s.clients && ValidPair(term.rates)
      && ((term.state == Active || term.state == Draining) && term.predecessor.Some? ==>
            term.predecessor.value in s.terms && s.terms[term.predecessor.value].state == Closed
              && s.terms[term.predecessor.value].client == term.client)
      && match term.state
         case Active => s.clients[term.client].current == Some(id) && s.clients[term.client].pending.None?
         case Draining => s.clients[term.client].current == Some(id) && s.clients[term.client].pending.Some?
         case Pending => s.clients[term.client].pending == Some(id)
         case Closed => true
  }

  predicate GrantOk(s: State, id: Id)
  {
    id in s.grants && s.grants[id].client in s.clients ==>
      s.grants[id].term in s.terms && s.terms[s.grants[id].term].client == s.grants[id].client
  }

  /** A share of a managed client with anything outstanding belongs to its current term. */
  predicate CurrentOk(s: State, id: Id)
  {
    id in s.shares && id in s.grants && s.grants[id].client in s.clients && s.shares[id].outstanding != ZERO ==>
      s.clients[s.grants[id].client].current == Some(s.grants[id].term)
  }

  ghost predicate SharesOk(w: World)
  {
    && w.store.shares.Keys == w.issued.Keys == w.enforced.Keys
    && (forall id :: id in w.store.shares ==> ShareOk(w, id))
    && forall b :: b in w.store.budgets ==> ValidPair(w.store.budgets[b].desired)
  }

  /** Pending, draining and current pointers agree with the terms' states, both ways. */
  ghost predicate PointersAgree(s: State)
  {
    && (forall id :: id in s.clients ==> ClientOk(s, id))
    && (forall id :: id in s.terms ==> TermOk(s, id))
  }

  ghost predicate TermsOk(s: State)
  {
    && PointersAgree(s)
    && (forall id :: id in s.grants ==> GrantOk(s, id))
    && (forall id :: id in s.shares ==> CurrentOk(s, id))
  }

  ghost predicate Inv(w: World)
  {
    SharesOk(w) && TermsOk(w.store)
  }

  const START := World(State(false, map[], map[], map[], map[], map[], map[], map[], map[]), map[], map[])

  lemma {:induction false} StartIsSafe()
    ensures Inv(START)
  {
  }

  // ----- how a transaction may move the shares -----

  /** The four moves of a share: none, a request, a revocation, a settlement that
      its node's progress proves. */
  predicate Move(before: Share, after: Share, enforced: nat, requested: bool)
  {
    || after == before
    || (&& requested && ValidPair(after.desired)
        && after == before.(revision := before.revision + 1, desired := after.desired,
                            outstanding := EnvelopePair(before.outstanding, after.desired)))
    || after == before.(revision := before.revision + 1, desired := ZERO)
    || (after == Settled(before) && before.revision <= enforced)
  }

  /** A share row that does not exist yet has told its node nothing. */
  function Before(s: State, id: Id, after: Share): Share
  {
    if id in s.shares then s.shares[id] else after.(revision := 0, applied := 0, desired := ZERO, outstanding := ZERO)
  }

  function Enforced(w: World, id: Id): nat
  {
    if id in w.enforced then w.enforced[id] else 0
  }

  /** Every share moved legally, and only those in `requested` by a request. */
  predicate Legal(w: World, t: State, requested: set<Id>)
  {
    && w.store.shares.Keys <= t.shares.Keys <= w.store.shares.Keys + requested
    && (forall id :: id in t.shares ==>
      Move(Before(w.store, id, t.shares[id]), t.shares[id], Enforced(w, id), id in requested))
    && (forall id :: id in w.store.grants ==> id in t.grants && t.grants[id] == w.store.grants[id])
    && (forall b :: b in w.store.budgets ==> b in t.budgets && t.budgets[b].client == w.store.budgets[b].client)
    && (forall id :: id in t.shares && id !in w.store.shares ==>
          t.shares[id].revision == 1 && t.shares[id].budget in t.budgets && id in t.grants
            && t.budgets[t.shares[id].budget].client == t.grants[id].client)
    && forall b :: b in t.budgets ==> ValidPair(t.budgets[b].desired)
  }

  lemma CoversIsTransitive(a: Pair, b: Pair, c: Pair)
    requires CoversPair(a, b) && CoversPair(b, c)
    ensures CoversPair(a, c)
  {
  }

  lemma EnvelopeCovers(a: Pair, b: Pair)
    requires ValidPair(a) && ValidPair(b)
    ensures ValidPair(EnvelopePair(a, b)) && CoversPair(EnvelopePair(a, b), a) && CoversPair(EnvelopePair(a, b), b)
    ensures CoversPair(a, b) <==> EnvelopePair(a, b) == a
  {
  }

  /** A request widens the outstanding rate over the old one and the new revision. */
  lemma RequestCovers(share: Share, history: seq<Pair>, enforced: nat, desired: Pair)
    requires Covered(share, history, enforced) && ValidPair(desired)
    ensures Covered(share.(revision := share.revision + 1, desired := desired,
      outstanding := EnvelopePair(share.outstanding, desired)), history + [desired], enforced)
  {
    var outstanding := EnvelopePair(share.outstanding, desired);
    EnvelopeCovers(share.outstanding, desired);
    forall r | enforced <= r < |history| ensures CoversPair(outstanding, history[r]) {
      CoversIsTransitive(outstanding, share.outstanding, history[r]);
    }
  }

  lemma RevocationCovers(share: Share, history: seq<Pair>, enforced: nat)
    requires Covered(share, history, enforced)
    ensures Covered(share.(revision := share.revision + 1, desired := ZERO), history + [ZERO], enforced)
  {
  }

  /** Settling is sound because the node stands at the latest revision. */
  lemma SettlementCovers(share: Share, history: seq<Pair>, enforced: nat)
    requires Covered(share, history, enforced) && share.revision <= enforced
    ensures Covered(Settled(share), history, enforced)
  {
  }

  lemma ShareIn(w: World, id: Id)
    requires SharesOk(w) && id in w.store.shares
    ensures ShareOk(w, id)
  {
  }

  lemma MoveCovers(before: Share, after: Share, history: seq<Pair>, enforced: nat, requested: bool)
    requires Covered(before, history, enforced) && Move(before, after, enforced, requested)
    ensures Covered(after, if before.revision == after.revision then history else history + [after.desired], enforced)
  {
    if after == before {
    } else if after == Settled(before) && before.revision <= enforced {
      SettlementCovers(before, history, enforced);
    } else if after == before.(revision := before.revision + 1, desired := ZERO) {
      RevocationCovers(before, history, enforced);
    } else {
      RequestCovers(before, history, enforced, after.desired);
    }
  }

  lemma AdvanceKeepsShare(w: World, t: State, requested: set<Id>, id: Id)
    requires SharesOk(w) && Legal(w, t, requested) && id in t.shares
    ensures Covered(t.shares[id], Advance(w, t).issued[id], Advance(w, t).enforced[id])
  {
    var before := Before(w.store, id, t.shares[id]);
    if id in w.store.shares {
      ShareIn(w, id);
    }
    assert Move(before, t.shares[id], Enforced(w, id), id in requested);
    MoveCovers(before, t.shares[id], History(w.issued, id), Enforced(w, id), id in requested);
  }

  lemma AdvanceKeepsShares(w: World, t: State, requested: set<Id>)
    requires SharesOk(w) && Legal(w, t, requested)
    ensures SharesOk(Advance(w, t))
  {
    forall id | id in t.shares ensures ShareOk(Advance(w, t), id) {
      AdvanceKeepsShare(w, t, requested, id);
      if id in w.store.shares {
        ShareIn(w, id);
      }
    }
  }

  lemma ApplyCovers(share: Share, history: seq<Pair>, enforced: nat, applies: nat)
    requires Covered(share, history, enforced) && enforced <= applies < |history|
    ensures Covered(share, history, applies)
  {
  }

  /** A node moving on to any later issued revision keeps the share part. */
  lemma ApplyKeepsShares(w: World, grant: Id, applies: nat)
    requires SharesOk(w) && grant in w.enforced && w.enforced[grant] <= applies < |w.issued[grant]|
    ensures SharesOk(w.(enforced := w.enforced[grant := applies]))
  {
    var v := w.(enforced := w.enforced[grant := applies]);
    ShareIn(w, grant);
    ApplyCovers(w.store.shares[grant], w.issued[grant], w.enforced[grant], applies);
    forall id | id in w.store.shares ensures ShareOk(v, id) {
      ShareIn(w, id);
    }
  }

  // ----- every transaction moves the shares legally -----

  /** A transaction that writes one share row and no grant or budget is legal when the row's move is. */
  lemma OneShareMoves(w: World, t: State, id: Id, after: Share, requested: bool)
    requires id in w.store.grants && forall b :: b in t.budgets ==> ValidPair(t.budgets[b].desired)
    requires t.shares == w.store.shares[id := after] && t.grants == w.store.grants && t.budgets == w.store.budgets
    requires Move(Before(w.store, id, after), after, Enforced(w, id), requested)
    requires id !in w.store.shares ==>
      requested && after.revision == 1 && after.budget in t.budgets
      && t.budgets[after.budget].client == t.grants[id].client
    ensures Legal(w, t, if requested then {id} else {})
  {
    forall k | k in t.shares && k != id
      ensures Move(Before(w.store, k, t.shares[k]), t.shares[k], Enforced(w, k), false) {
    }
  }

  lemma RequestShape(s: State, request: RateRequest, now: int)
    requires RequestRateShare(s, request, now).Ok? && request.operation !in s.operations
    ensures var t, after := RequestRateShare(s, request, now).value.0, ShareAfter(s, request);
      && t == s.(shares := s.shares[request.grant := after], operations := t.operations)
      && request.grant in s.grants && request.budget in s.budgets
        && s.budgets[request.budget].client == s.grants[request.grant].client
      && ValidPair(request.desired)
      && (request.grant in s.shares ==> s.shares[request.grant].budget == request.budget)
  {
  }

  lemma RequestIsLegal(w: World, request: RateRequest, now: int)
    requires SharesOk(w) && RequestRateShare(w.store, request, now).Ok?
    ensures Legal(w, RequestRateShare(w.store, request, now).value.0, {request.grant})
  {
    if request.operation !in w.store.operations {
      RequestShape(w.store, request, now);
      OneShareMoves(w, RequestRateShare(w.store, request, now).value.0, request.grant,
        ShareAfter(w.store, request), true);
    }
  }

  lemma SetRateBudgetIsLegal(w: World, id: Id, client: Id, term: Id, revision: int, desired: Pair)
    requires SharesOk(w) && SetRateBudget(w.store, id, client, term, revision, desired).Ok?
    ensures Legal(w, SetRateBudget(w.store, id, client, term, revision, desired).value, {})
  {
  }

  lemma ConfirmIsLegal(w: World, node: Id, installation: Id, grant: Id, revision: int, applied: Pair)
    requires SharesOk(w) && ConfirmRateShare(w.store, node, installation, grant, revision, applied).Ok?
    requires grant in w.enforced ==> revision <= w.enforced[grant]
    ensures Legal(w, ConfirmRateShare(w.store, node, installation, grant, revision, applied).value, {})
  {
    ShareIn(w, grant);
    OneShareMoves(w, ConfirmRateShare(w.store, node, installation, grant, revision, applied).value, grant,
      Settled(w.store.shares[grant]), false);
  }

  lemma AcknowledgeIsLegal(w: World, node: Id, installation: Id, claims: map<Id, RateClaim>)
    requires SharesOk(w) && AcknowledgeConfiguration(w.store, node, installation, claims).Ok?
    requires forall id :: id in claims && id in w.enforced ==> claims[id].revision <= w.enforced[id]
    ensures Legal(w, AcknowledgeConfiguration(w.store, node, installation, claims).value, {})
  {
  }

  lemma AcknowledgeUpdatesIsLegal(w: World, node: Id, installation: Id, base: int, entries: map<Id, AuthorityEntry>)
    requires SharesOk(w) && AcknowledgeAuthority(w.store, node, installation, base, entries).Ok?
    requires forall id :: id in entries && id in w.enforced ==> entries[id].revision <= w.enforced[id]
    ensures Legal(w, AcknowledgeAuthority(w.store, node, installation, base, entries).value, {})
  {
  }

  lemma ZeroStopIsLegal(w: World, grant: Id, expected: Share)
    requires SharesOk(w) && ZeroStopRateShare(w.store, grant, expected).Ok?
    ensures Legal(w, ZeroStopRateShare(w.store, grant, expected).value, {})
  {
    var t := ZeroStopRateShare(w.store, grant, expected).value;
    OneShareMoves(w, t, grant, t.shares[grant], false);
  }

  /** Activating a pool touches nothing but the budgets, and no budget changes hands. */
  lemma SetBudgetShape(s: State, id: Id, client: Id, term: Id, revision: int, desired: Pair)
    requires SetRateBudget(s, id, client, term, revision, desired).Ok?
    ensures SetRateBudget(s, id, client, term, revision, desired).value ==
      s.(budgets := s.budgets[id := RateBudget(client, term, revision, desired)])
    ensures ValidPair(desired) && (id in s.budgets ==> s.budgets[id].client == client)
  {
  }

  /** Activating a pool writes one budget row of the same client. */
  predicate PoolWritten(s: State, t: State, client: Id)
  {
    && client in t.budgets && t == s.(budgets := s.budgets[client := t.budgets[client]])
    && t.budgets[client].client == client && ValidPair(t.budgets[client].desired)
    && (client in s.budgets ==> s.budgets[client].client == client)
  }

  lemma PoolShape(s: State, client: Id, termId: Id, term: Term)
    requires ActivateRatePool(s, client, termId, term).Ok?
    ensures PoolWritten(s, ActivateRatePool(s, client, termId, term).value, client)
  {
    var revision := if client in s.budgets then s.budgets[client].revision else 0;
    SetBudgetShape(s, client, client, termId, revision + 1, term.rates);
  }

  lemma PoolTerm(s: State, client: Id, termId: Id, term: Term)
    requires ActivateRatePool(s, client, termId, term).Ok?
    ensures var t := ActivateRatePool(s, client, termId, term).value;
      client in t.budgets && t.budgets[client].term == termId && t.budgets[client].desired == term.rates
  {
  }

  /** What a lifecycle transaction leaves alone. */
  predicate SharesUntouched(s: State, t: State)
  {
    && t == s.(clients := t.clients, terms := t.terms, budgets := t.budgets, operations := t.operations)
    && (forall b :: b in s.budgets ==> b in t.budgets && t.budgets[b].client == s.budgets[b].client)
    && (forall b :: b in t.budgets ==>
      (b in s.budgets && t.budgets[b] == s.budgets[b]) || ValidPair(t.budgets[b].desired))
  }

  lemma StartFirstLeavesShares(s: State, call: LifecycleCall, client: Client, number: int, newTerm: Id, now: int)
    requires call.Transition? && StartFirst(s, call, client, number, newTerm, now).Ok?
    ensures SharesUntouched(s, StartFirst(s, call, client, number, newTerm, now).value.0)
  {
    var started := StartTerm(NewTerm(call, client, number), now).value;
    var s1 := s.(clients :=
      s.clients[call.client := client.(current := Some(newTerm), revision := client.revision + 1)],
      terms := s.terms[newTerm := started]);
    PoolShape(s1, call.client, newTerm, started);
    PoolLeavesShares(s, s1, StartFirst(s, call, client, number, newTerm, now).value.0, call.client);
  }

  lemma PoolLeavesShares(s: State, s1: State, t: State, client: Id)
    requires s1 == s.(clients := s1.clients, terms := s1.terms) && PoolWritten(s1, t, client)
    ensures SharesUntouched(s, t)
  {
  }

  lemma TransitionLeavesShares(s: State, call: LifecycleCall, newTerm: Id, now: int)
    requires call.Transition? && ApplyTransition(s, call, newTerm, now).Ok?
    ensures SharesUntouched(s, ApplyTransition(s, call, newTerm, now).value.0)
  {
    if call.kind == Activation {
      StartFirstLeavesShares(s, call, s.clients[call.client], NumberOf(s.terms, call.client) + 1, newTerm, now);
    }
  }

  lemma CompleteLeavesShares(s: State, call: LifecycleCall, now: int)
    requires call.Complete? && ApplyComplete(s, call, now).Ok?
    ensures SharesUntouched(s, ApplyComplete(s, call, now).value.0)
  {
    var (client, term, previousId, previous) := LockPending(s, call).value;
    var active := StartTerm(term, now).value.(state := Active, generation := client.generation);
    var owner := client.(current := Some(call.pendingTerm), pending := None, revision := client.revision + 1);
    var s1 := s.(clients := s.clients[call.client := owner],
      terms := s.terms[call.pendingTerm := active][previousId := previous.(state := Closed)]);
    PoolShape(s1, call.client, call.pendingTerm, active);
  }

  lemma LifecycleLeavesShares(s: State, operation: Id, call: LifecycleCall, newTerm: Id, now: int)
    requires Lifecycle(s, operation, call, newTerm, now).Ok?
    ensures SharesUntouched(s, Lifecycle(s, operation, call, newTerm, now).value.0)
  {
    if operation !in s.operations {
      match call
      case Transition(_, _, _, _, _, _, _) => TransitionLeavesShares(s, call, newTerm, now);
      case Complete(_, _, _, _, _) => CompleteLeavesShares(s, call, now);
      case Cancel(_, _, _, _) =>
    }
  }

  // ----- the terms -----

  /** With agreeing pointers, grants and shares follow when one client's row
      changed: either its current term stayed, or it had nothing outstanding. */
  lemma RestFollows(s: State, t: State, client: Id)
    requires TermsOk(s) && PointersAgree(t) && t.grants == s.grants && t.shares == s.shares
    requires client in s.clients && client in t.clients && t.clients == s.clients[client := t.clients[client]]
    requires forall k :: k in s.terms ==> k in t.terms && t.terms[k].client == s.terms[k].client
    requires t.clients[client].current == s.clients[client].current
      || forall id :: id in s.shares && id in s.grants && s.grants[id].client == client ==>
        s.shares[id].outstanding == ZERO
    ensures TermsOk(t)
  {
    forall id | id in t.grants ensures GrantOk(t, id) {
      assert GrantOk(s, id);
    }
    forall id | id in t.shares ensures CurrentOk(t, id) {
      assert CurrentOk(s, id);
    }
  }

  /** Activating the first term: nothing was outstanding before there was a current term. */
  lemma ActivationKeepsPointers(s: State, t: State, client: Id, newTerm: Id, term: Term)
    requires PointersAgree(s) && client in s.clients && s.clients[client].current.None?
      && s.clients[client].pending.None?
    requires newTerm !in s.terms && term.client == client && term.state == Active && term.predecessor.None?
      && ValidPair(term.rates)
    requires client in t.clients && t.clients == s.clients[client := t.clients[client]]
      && t.clients[client].current == Some(newTerm) && t.clients[client].pending.None?
    requires t.terms == s.terms[newTerm := term]
    ensures PointersAgree(t)
  {
    forall id | id in t.clients ensures ClientOk(t, id) {
      assert ClientOk(s, id);
    }
    forall id | id in t.terms ensures TermOk(t, id) {
      assert id in s.terms ==> TermOk(s, id);
    }
  }

  /** A successor starts pending and its predecessor drains. */
  lemma PendingKeepsClient(s: State, t: State, client: Id, newTerm: Id, term: Term, id: Id)
    requires PointersAgree(s) && client in s.clients && s.clients[client].current.Some?
      && s.clients[client].pending.None?
    requires newTerm !in s.terms && term.client == client && term.state == Pending
      && term.predecessor == s.clients[client].current && ValidPair(term.rates)
    requires client in t.clients && t.clients == s.clients[client := t.clients[client]]
    requires t.clients[client].current == s.clients[client].current && t.clients[client].pending == Some(newTerm)
    requires var p := s.clients[client].current.value;
      p in s.terms && t.terms == s.terms[p := s.terms[p].(state := Draining)][newTerm := term]
    requires id in t.clients
    ensures ClientOk(t, id)
  {
    assert ClientOk(s, client);
    assert ClientOk(s, id);
  }

  lemma PendingKeepsTerm(s: State, t: State, client: Id, newTerm: Id, term: Term, id: Id)
    requires PointersAgree(s) && client in s.clients && s.clients[client].current.Some?
      && s.clients[client].pending.None?
    requires newTerm !in s.terms && term.client == client && term.state == Pending
      && term.predecessor == s.clients[client].current && ValidPair(term.rates)
    requires client in t.clients && t.clients == s.clients[client := t.clients[client]]
    requires t.clients[client].current == s.clients[client].current && t.clients[client].pending == Some(newTerm)
    requires var p := s.clients[client].current.value;
      p in s.terms && t.terms == s.terms[p := s.terms[p].(state := Draining)][newTerm := term]
    requires id in t.terms
    ensures TermOk(t, id)
  {
    assert ClientOk(s, client);
    assert id in s.terms ==> TermOk(s, id);
  }

  lemma PendingKeepsPointers(s: State, t: State, client: Id, newTerm: Id, term: Term)
    requires PointersAgree(s) && client in s.clients && s.clients[client].current.Some?
      && s.clients[client].pending.None?
    requires newTerm !in s.terms && term.client == client && term.state == Pending
      && term.predecessor == s.clients[client].current && ValidPair(term.rates)
    requires client in t.clients && t.clients == s.clients[client := t.clients[client]]
    requires t.clients[client].current == s.clients[client].current && t.clients[client].pending == Some(newTerm)
    requires var p := s.clients[client].current.value;
      p in s.terms && t.terms == s.terms[p := s.terms[p].(state := Draining)][newTerm := term]
    ensures PointersAgree(t)
  {
    forall id | id in t.clients ensures ClientOk(t, id) {
      PendingKeepsClient(s, t, client, newTerm, term, id);
    }
    forall id | id in t.terms ensures TermOk(t, id) {
      PendingKeepsTerm(s, t, client, newTerm, term, id);
    }
  }

  /** Once its grants are stopped, nothing of a client is outstanding. */
  lemma StoppedMeansIdle(s: State, client: Id, id: Id)
    requires TermsOk(s) && client in s.clients && s.clients[client].current.Some?
      && Stopped(s, client, s.clients[client].current.value)
    requires id in s.shares && id in s.grants && s.grants[id].client == client
    ensures s.shares[id].outstanding == ZERO
  {
    assert CurrentOk(s, id);
    if s.grants[id].term == s.clients[client].current.value {
      assert GrantStopped(s, id, client);
    }
  }

  lemma CompletionKeepsClient(s: State, t: State, client: Id, newTerm: Id, term: Term, id: Id)
    requires PointersAgree(s) && client in s.clients && s.clients[client].current.Some?
      && s.clients[client].pending == Some(newTerm)
    requires newTerm in s.terms && term.client == client && term.state == Active
      && term.predecessor == s.clients[client].current && ValidPair(term.rates)
    requires client in t.clients && t.clients == s.clients[client := t.clients[client]]
      && t.clients[client].current == Some(newTerm) && t.clients[client].pending.None?
    requires var p := s.clients[client].current.value;
      p in s.terms && p != newTerm && t.terms == s.terms[newTerm := term][p := s.terms[p].(state := Closed)]
    requires id in t.clients
    ensures ClientOk(t, id)
  {
    assert ClientOk(s, client);
    assert ClientOk(s, id);
  }

  lemma CompletionKeepsTerm(s: State, t: State, client: Id, newTerm: Id, term: Term, id: Id)
    requires PointersAgree(s) && client in s.clients && s.clients[client].current.Some?
      && s.clients[client].pending == Some(newTerm)
    requires newTerm in s.terms && term.client == client && term.state == Active
      && term.predecessor == s.clients[client].current && ValidPair(term.rates)
    requires client in t.clients && t.clients == s.clients[client := t.clients[client]]
      && t.clients[client].current == Some(newTerm) && t.clients[client].pending.None?
    requires var p := s.clients[client].current.value;
      p in s.terms && p != newTerm && t.terms == s.terms[newTerm := term][p := s.terms[p].(state := Closed)]
    requires id in t.terms
    ensures TermOk(t, id)
  {
    assert ClientOk(s, client);
    assert id in s.terms ==> TermOk(s, id);
  }

  lemma CompletionKeepsPointers(s: State, t: State, client: Id, newTerm: Id, term: Term)
    requires PointersAgree(s) && client in s.clients && s.clients[client].current.Some?
      && s.clients[client].pending == Some(newTerm)
    requires newTerm in s.terms && term.client == client && term.state == Active
      && term.predecessor == s.clients[client].current && ValidPair(term.rates)
    requires client in t.clients && t.clients == s.clients[client := t.clients[client]]
      && t.clients[client].current == Some(newTerm) && t.clients[client].pending.None?
    requires var p := s.clients[client].current.value;
      p in s.terms && p != newTerm && t.terms == s.terms[newTerm := term][p := s.terms[p].(state := Closed)]
    ensures PointersAgree(t)
  {
    forall id | id in t.clients ensures ClientOk(t, id) {
      CompletionKeepsClient(s, t, client, newTerm, term, id);
    }
    forall id | id in t.terms ensures TermOk(t, id) {
      CompletionKeepsTerm(s, t, client, newTerm, term, id);
    }
  }

  lemma CancellationKeepsClient(s: State, t: State, client: Id, newTerm: Id, id: Id)
    requires PointersAgree(s) && client in s.clients && s.clients[client].current.Some?
      && s.clients[client].pending == Some(newTerm)
    requires newTerm in s.terms && client in t.clients && t.clients == s.clients[client := t.clients[client]]
    requires t.clients[client].current == s.clients[client].current && t.clients[client].pending.None?
    requires var p := s.clients[client].current.value;
      p in s.terms && p != newTerm
        && t.terms == s.terms[newTerm := s.terms[newTerm].(state := Closed)][p := s.terms[p].(state := Active)]
    requires id in t.clients
    ensures ClientOk(t, id)
  {
    assert ClientOk(s, client);
    assert ClientOk(s, id);
  }

  lemma CancellationKeepsTerm(s: State, t: State, client: Id, newTerm: Id, id: Id)
    requires ClientOk(s, client) && TermOk(s, id) && client in s.clients && s.clients[client].current.Some?
      && s.clients[client].pending == Some(newTerm)
    requires newTerm in s.terms && client in t.clients && t.clients == s.clients[client := t.clients[client]]
    requires t.clients[client].current == s.clients[client].current && t.clients[client].pending.None?
    requires var p := s.clients[client].current.value;
      p in s.terms && p != newTerm
        && t.terms == s.terms[newTerm := s.terms[newTerm].(state := Closed)][p := s.terms[p].(state := Active)]
    requires id in t.terms
    ensures TermOk(t, id)
  {
  }

  lemma CancellationKeepsPointers(s: State, t: State, client: Id, newTerm: Id)
    requires PointersAgree(s) && client in s.clients && s.clients[client].current.Some?
      && s.clients[client].pending == Some(newTerm)
    requires newTerm in s.terms && client in t.clients && t.clients == s.clients[client := t.clients[client]]
    requires t.clients[client].current == s.clients[client].current && t.clients[client].pending.None?
    requires var p := s.clients[client].current.value;
      p in s.terms && p != newTerm
        && t.terms == s.terms[newTerm := s.terms[newTerm].(state := Closed)][p := s.terms[p].(state := Active)]
    ensures PointersAgree(t)
  {
    forall id | id in t.clients ensures ClientOk(t, id) {
      CancellationKeepsClient(s, t, client, newTerm, id);
    }
    forall id | id in t.terms ensures TermOk(t, id) {
      CancellationKeepsTerm(s, t, client, newTerm, id);
    }
  }

  /** What starting a transition does to clients and terms: a first term starts
      active, a successor pending behind a draining predecessor. */
  predicate TransitionShape(s: State, t: State, client: Id, newTerm: Id, term: Term)
  {
    && client in s.clients && s.clients[client].pending.None? && term.client == client && newTerm !in s.terms
    && client in t.clients && t.clients == s.clients[client := t.clients[client]] && t.grants == s.grants
      && t.shares == s.shares
    && match s.clients[client].current
       case None =>
         && term.state == Active && term.predecessor.None? && t.clients[client].current == Some(newTerm)
           && t.clients[client].pending.None?
         && t.terms == s.terms[newTerm := term]
       case Some(p) =>
         && term.state == Pending && term.predecessor == Some(p) && t.clients[client].current == Some(p)
           && t.clients[client].pending == Some(newTerm)
         && p in s.terms && t.terms == s.terms[p := s.terms[p].(state := Draining)][newTerm := term]
  }

  lemma TransitionHasShape(s: State, call: LifecycleCall, newTerm: Id, now: int)
    requires call.Transition? && ApplyTransition(s, call, newTerm, now).Ok? && newTerm !in s.terms
    ensures TransitionShape(s, ApplyTransition(s, call, newTerm, now).value.0, call.client, newTerm,
      ApplyTransition(s, call, newTerm, now).value.1.term)
    ensures ApplyTransition(s, call, newTerm, now).value.1.term.rates == call.spec.rates
  {
    TransitionLeavesShares(s, call, newTerm, now);
  }

  lemma NothingBeforeActivation(s: State, client: Id)
    requires TermsOk(s) && client in s.clients && s.clients[client].current.None?
    ensures forall id :: id in s.shares && id in s.grants && s.grants[id].client == client ==>
      s.shares[id].outstanding == ZERO
  {
    forall id | id in s.shares && id in s.grants && s.grants[id].client == client
      ensures s.shares[id].outstanding == ZERO {
      assert CurrentOk(s, id);
    }
  }

  lemma StartedKeepsTerms(s: State, t: State, client: Id, newTerm: Id, term: Term)
    requires TermsOk(s) && TransitionShape(s, t, client, newTerm, term) && ValidPair(term.rates)
    ensures TermsOk(t)
  {
    if s.clients[client].current.None? {
      FirstKeepsTerms(s, t, client, newTerm, term);
    } else {
      SuccessorKeepsTerms(s, t, client, newTerm, term);
    }
  }

  lemma FirstKeepsTerms(s: State, t: State, client: Id, newTerm: Id, term: Term)
    requires TermsOk(s) && TransitionShape(s, t, client, newTerm, term) && ValidPair(term.rates)
      && s.clients[client].current.None?
    ensures TermsOk(t)
  {
    ActivationKeepsPointers(s, t, client, newTerm, term);
    NothingBeforeActivation(s, client);
    RestFollows(s, t, client);
  }

  lemma SuccessorKeepsTerms(s: State, t: State, client: Id, newTerm: Id, term: Term)
    requires TermsOk(s) && TransitionShape(s, t, client, newTerm, term) && ValidPair(term.rates)
      && s.clients[client].current.Some?
    ensures TermsOk(t)
  {
    PendingKeepsPointers(s, t, client, newTerm, term);
    RestFollows(s, t, client);
  }

  lemma TransitionKeepsTerms(s: State, call: LifecycleCall, newTerm: Id, now: int)
    requires TermsOk(s) && call.Transition? && ApplyTransition(s, call, newTerm, now).Ok? && newTerm !in s.terms
      && ValidPair(call.spec.rates)
    ensures TermsOk(ApplyTransition(s, call, newTerm, now).value.0)
  {
    TransitionHasShape(s, call, newTerm, now);
    StartedKeepsTerms(s, ApplyTransition(s, call, newTerm, now).value.0, call.client, newTerm,
      ApplyTransition(s, call, newTerm, now).value.1.term);
  }

  /** What completing a transition does to clients and terms. */
  predicate CompletionShape(s: State, t: State, client: Id, newTerm: Id, term: Term)
  {
    && client in s.clients && s.clients[client].current.Some? && s.clients[client].pending == Some(newTerm)
    && newTerm in s.terms && term.client == client && term.state == Active
      && term.predecessor == s.clients[client].current && term.rates == s.terms[newTerm].rates
    && client in t.clients && t.clients == s.clients[client := t.clients[client]]
      && t.clients[client].current == Some(newTerm) && t.clients[client].pending.None?
    && var p := s.clients[client].current.value;
      && p in s.terms && s.terms[p].client == s.terms[newTerm].client == client
        && t.terms == s.terms[newTerm := term][p := s.terms[p].(state := Closed)]
      && t.grants == s.grants && t.shares == s.shares && Stopped(s, client, p)
  }

  lemma CompleteHasShape(s: State, call: LifecycleCall, now: int)
    requires call.Complete? && ApplyComplete(s, call, now).Ok? && call.client in s.clients
      && s.clients[call.client].current != Some(call.pendingTerm)
    ensures CompletionShape(s, ApplyComplete(s, call, now).value.0, call.client, call.pendingTerm,
      ApplyComplete(s, call, now).value.1.term)
  {
    CompleteLeavesShares(s, call, now);
  }

  lemma CompletedKeepsTerms(s: State, t: State, client: Id, newTerm: Id, term: Term)
    requires TermsOk(s) && CompletionShape(s, t, client, newTerm, term)
    ensures TermsOk(t)
  {
    assert ClientOk(s, client) && TermOk(s, newTerm);
    forall id | id in s.shares && id in s.grants && s.grants[id].client == client
      ensures s.shares[id].outstanding == ZERO {
      StoppedMeansIdle(s, client, id);
    }
    CompletionKeepsPointers(s, t, client, newTerm, term);
    RestFollows(s, t, client);
  }

  lemma CompleteKeepsTerms(s: State, call: LifecycleCall, now: int)
    requires TermsOk(s) && call.Complete? && ApplyComplete(s, call, now).Ok?
    ensures TermsOk(ApplyComplete(s, call, now).value.0)
  {
    var (t, result) := ApplyComplete(s, call, now).value;
    assert ClientOk(s, call.client);
    CompleteHasShape(s, call, now);
    CompletedKeepsTerms(s, t, call.client, call.pendingTerm, result.term);
  }

  lemma CancelKeepsTerms(s: State, call: LifecycleCall)
    requires TermsOk(s) && call.Cancel? && ApplyCancel(s, call).Ok?
    ensures TermsOk(ApplyCancel(s, call).value.0)
  {
    assert ClientOk(s, call.client);
    CancellationKeepsPointers(s, ApplyCancel(s, call).value.0, call.client, call.pendingTerm);
    RestFollows(s, ApplyCancel(s, call).value.0, call.client);
  }

  lemma OperationsDoNotMatter(s: State, operations: map<Id, Operation>)
    requires TermsOk(s)
    ensures TermsOk(s.(operations := operations))
  {
    var t := s.(operations := operations);
    forall id | id in t.clients ensures ClientOk(t, id) {
      assert ClientOk(s, id);
    }
    forall id | id in t.terms ensures TermOk(t, id) {
      assert TermOk(s, id);
    }
    forall id | id in t.grants ensures GrantOk(t, id) {
      assert GrantOk(s, id);
    }
    forall id | id in t.shares ensures CurrentOk(t, id) {
      assert CurrentOk(s, id);
    }
  }

  lemma LifecycleKeepsTerms(s: State, operation: Id, call: LifecycleCall, newTerm: Id, now: int)
    requires TermsOk(s) && Lifecycle(s, operation, call, newTerm, now).Ok? && newTerm !in s.terms
    ensures TermsOk(Lifecycle(s, operation, call, newTerm, now).value.0)
  {
    if operation !in s.operations {
      var t := Lifecycle(s, operation, call, newTerm, now).value.0;
      match call
      case Transition(_, _, _, _, _, _, _) =>
        TransitionKeepsTerms(s, call, newTerm, now);
        OperationsDoNotMatter(ApplyTransition(s, call, newTerm, now).value.0, t.operations);
      case Complete(_, _, _, _, _) =>
        CompleteKeepsTerms(s, call, now);
        OperationsDoNotMatter(ApplyComplete(s, call, now).value.0, t.operations);
      case Cancel(_, _, _, _) =>
        CancelKeepsTerms(s, call);
        OperationsDoNotMatter(ApplyCancel(s, call).value.0, t.operations);
    }
  }

  /** Transactions on share rows keep the terms as long as no idle share of
      another term becomes outstanding. */
  lemma RowsKeepTerms(s: State, t: State)
    requires TermsOk(s) && t.clients == s.clients && t.terms == s.terms && t.grants == s.grants
    requires forall id :: id in t.shares ==>
      CurrentOk(t, id) || (id in s.shares && (s.shares[id].outstanding == ZERO ==> t.shares[id].outstanding == ZERO))
    ensures TermsOk(t)
  {
    forall id | id in t.clients ensures ClientOk(t, id) {
      assert ClientOk(s, id);
    }
    forall id | id in t.terms ensures TermOk(t, id) {
      assert TermOk(s, id);
    }
    forall id | id in t.grants ensures GrantOk(t, id) {
      assert GrantOk(s, id);
    }
    forall id | id in t.shares ensures CurrentOk(t, id) {
      assert id in s.shares ==> CurrentOk(s, id);
    }
  }

  lemma IdleDesiresNothing(share: Share, history: seq<Pair>, enforced: nat)
    requires Covered(share, history, enforced) && share.outstanding == ZERO
    ensures share.desired == ZERO
    ensures forall r :: enforced <= r < |history| ==> history[r] == ZERO
  {
    forall r | enforced <= r < |history| ensures history[r] == ZERO {
      assert CoversPair(ZERO, history[r]) && ValidPair(history[r]);
    }
  }

  /** Settling and revoking keep idle shares idle. */
  lemma SettledStaysIdle(w: World, t: State, id: Id)
    requires SharesOk(w) && id in w.store.shares && id in t.shares && w.store.shares[id].outstanding == ZERO
    requires t.shares[id] == w.store.shares[id] || t.shares[id] == Settled(w.store.shares[id])
    ensures t.shares[id].outstanding == ZERO
  {
    ShareIn(w, id);
    IdleDesiresNothing(w.store.shares[id], w.issued[id], w.enforced[id]);
  }

  lemma RequestKeepsTerms(w: World, request: RateRequest, now: int)
    requires Inv(w) && RequestRateShare(w.store, request, now).Ok?
    ensures TermsOk(RequestRateShare(w.store, request, now).value.0)
  {
    if request.operation !in w.store.operations {
      var t := RequestRateShare(w.store, request, now).value.0;
      RequestShape(w.store, request, now);
      RequestRaisesOnlyCurrent(w.store, request, now);
      RowsKeepTerms(w.store, t);
    }
  }

  /** A request that raises a managed client's share names its current term. */
  lemma RequestRaisesOnlyCurrent(s: State, request: RateRequest, now: int)
    requires RequestRateShare(s, request, now).Ok? && request.operation !in s.operations
    ensures var grant, before, after := s.grants[request.grant], ShareBefore(s, request), ShareAfter(s, request);
      after.outstanding != before.outstanding && grant.client in s.clients ==>
        s.clients[grant.client].current == Some(grant.term)
  {
  }

  lemma ConfirmKeepsTerms(w: World, node: Id, installation: Id, grant: Id, revision: int, applied: Pair)
    requires Inv(w) && ConfirmRateShare(w.store, node, installation, grant, revision, applied).Ok?
    ensures TermsOk(ConfirmRateShare(w.store, node, installation, grant, revision, applied).value)
  {
    ConfirmShape(w.store, node, installation, grant, revision, applied);
    SettlingOneKeepsTerms(w, grant, ConfirmRateShare(w.store, node, installation, grant, revision, applied).value);
  }

  lemma ConfirmShape(s: State, node: Id, installation: Id, grant: Id, revision: int, applied: Pair)
    requires ConfirmRateShare(s, node, installation, grant, revision, applied).Ok?
    ensures grant in s.shares
    ensures ConfirmRateShare(s, node, installation, grant, revision, applied).value ==
      s.(shares := s.shares[grant := Settled(s.shares[grant])])
  {
  }

  lemma SettlingOneKeepsTerms(w: World, grant: Id, t: State)
    requires SharesOk(w) && TermsOk(w.store) && grant in w.store.shares
      && t == w.store.(shares := w.store.shares[grant := Settled(w.store.shares[grant])])
    ensures TermsOk(t)
  {
    if w.store.shares[grant].outstanding == ZERO {
      SettledStaysIdle(w, t, grant);
    }
    OneRowKeepsTerms(w.store, t, grant);
  }

  lemma OneRowKeepsTerms(s: State, t: State, grant: Id)
    requires TermsOk(s) && grant in s.shares && grant in t.shares
      && t == s.(shares := s.shares[grant := t.shares[grant]])
    requires s.shares[grant].outstanding == ZERO ==> t.shares[grant].outstanding == ZERO
    ensures TermsOk(t)
  {
    RowsKeepTerms(s, t);
  }

  lemma AcknowledgeKeepsTerms(w: World, node: Id, installation: Id, claims: map<Id, RateClaim>)
    requires Inv(w) && AcknowledgeConfiguration(w.store, node, installation, claims).Ok?
    ensures TermsOk(AcknowledgeConfiguration(w.store, node, installation, claims).value)
  {
    var t := AcknowledgeConfiguration(w.store, node, installation, claims).value;
    forall id | id in t.shares && w.store.shares[id].outstanding == ZERO ensures t.shares[id].outstanding == ZERO {
      SettledStaysIdle(w, t, id);
    }
    RowsKeepTerms(w.store, t);
  }

  lemma AcknowledgeUpdatesKeepsTerms(w: World, node: Id, installation: Id, base: int, entries: map<Id, AuthorityEntry>)
    requires Inv(w) && AcknowledgeAuthority(w.store, node, installation, base, entries).Ok?
    ensures TermsOk(AcknowledgeAuthority(w.store, node, installation, base, entries).value)
  {
    var t := AcknowledgeAuthority(w.store, node, installation, base, entries).value;
    forall id | id in t.shares && w.store.shares[id].outstanding == ZERO ensures t.shares[id].outstanding == ZERO {
      SettledStaysIdle(w, t, id);
    }
    RowsKeepTerms(w.store, t);
  }

  /** A reservation binds a grant to its client's current term only. */
  lemma ReserveKeepsTerms(s: State, id: Id, grant: Grant, ownBudget: bool, placement: bool, now: int)
    requires TermsOk(s) && ReserveGrant(s, id, grant, ownBudget, placement, now).Ok? && s.shares.Keys <= s.grants.Keys
    ensures TermsOk(ReserveGrant(s, id, grant, ownBudget, placement, now).value)
  {
    var t := ReserveGrant(s, id, grant, ownBudget, placement, now).value;
    forall k | k in t.clients ensures ClientOk(t, k) {
      assert ClientOk(s, k);
    }
    forall k | k in t.terms ensures TermOk(t, k) {
      assert TermOk(s, k);
    }
    forall k | k in t.grants ensures GrantOk(t, k) {
      assert k in s.grants ==> GrantOk(s, k);
    }
    forall k | k in t.shares ensures CurrentOk(t, k) {
      assert CurrentOk(s, k);
    }
  }

  /** Editing a client row without its pointers, or binding an unused one, keeps the terms. */
  lemma ClientEditKeepsTerms(s: State, t: State, id: Id)
    requires TermsOk(s) && id in t.clients && t == s.(clients := s.clients[id := t.clients[id]])
    requires if id in s.clients then t.clients[id].current == s.clients[id].current
      && t.clients[id].pending == s.clients[id].pending
             else UnusedClient(s, id) && t.clients[id].current.None? && t.clients[id].pending.None?
    ensures TermsOk(t)
  {
    forall k | k in t.clients ensures ClientOk(t, k) {
      assert k in s.clients ==> ClientOk(s, k);
    }
    forall k | k in t.terms ensures TermOk(t, k) {
      assert TermOk(s, k);
    }
    forall k | k in t.grants ensures GrantOk(t, k) {
      assert GrantOk(s, k);
    }
    forall k | k in t.shares ensures CurrentOk(t, k) {
      assert CurrentOk(s, k);
    }
  }

  /** A transaction that leaves shares and budgets alone is legal. */
  lemma QuietIsLegal(w: World, t: State)
    requires SharesOk(w) && t.shares == w.store.shares && t.budgets == w.store.budgets
    requires forall id :: id in w.store.grants ==> id in t.grants && t.grants[id] == w.store.grants[id]
    ensures Legal(w, t, {})
  {
    forall id | id in t.shares ensures id in t.grants {
      ShareIn(w, id);
    }
  }

  lemma UntouchedIsLegal(w: World, t: State)
    requires SharesOk(w) && SharesUntouched(w.store, t)
    ensures Legal(w, t, {})
  {
    forall id | id in t.shares ensures id in t.grants {
      ShareIn(w, id);
    }
  }

  // ----- all events -----

  /** What one event leaves behind: a legal move of the shares, and agreeing terms. */
  ghost predicate Sound(w: World, t: State, requested: set<Id>)
  {
    Legal(w, t, requested) && TermsOk(t)
  }

  /** The shares an event may raise. */
  function Requested(e: Event): set<Id>
  {
    if e.OfRates? then RequestedBy(e.rate) else {}
  }

  function RequestedBy(e: RateEvent): set<Id>
  {
    if e.Request? then {e.request.grant} else {}
  }

  lemma UnchangedIsSound(w: World)
    requires Inv(w)
    ensures Sound(w, w.store, {})
  {
    QuietIsLegal(w, w.store);
  }

  lemma SetRateBudgetKeepsTerms(s: State, id: Id, client: Id, term: Id, revision: int, desired: Pair)
    requires TermsOk(s) && SetRateBudget(s, id, client, term, revision, desired).Ok?
    ensures TermsOk(SetRateBudget(s, id, client, term, revision, desired).value)
  {
    RowsKeepTerms(s, SetRateBudget(s, id, client, term, revision, desired).value);
  }

  lemma ZeroStopKeepsTerms(s: State, grant: Id, expected: Share)
    requires TermsOk(s) && ZeroStopRateShare(s, grant, expected).Ok?
    ensures TermsOk(ZeroStopRateShare(s, grant, expected).value)
  {
    RowsKeepTerms(s, ZeroStopRateShare(s, grant, expected).value);
  }

  lemma StopsDoNotMatter(s: State, stops: map<Id, Stop>, nodes: map<Id, Node>, fenced: bool)
    requires TermsOk(s)
    ensures TermsOk(s.(stops := stops, nodes := nodes, fenced := fenced))
  {
    RowsKeepTerms(s, s.(stops := stops, nodes := nodes, fenced := fenced));
  }

  lemma RateEventIsSound(w: World, e: RateEvent)
    requires Inv(w)
    ensures Sound(w, AfterRate(w.store, e), RequestedBy(e))
  {
    UnchangedIsSound(w);
    match e
    case SetBudget(id, client, term, revision, desired) =>
      if SetRateBudget(w.store, id, client, term, revision, desired).Ok? {
        SetRateBudgetIsLegal(w, id, client, term, revision, desired);
        SetRateBudgetKeepsTerms(w.store, id, client, term, revision, desired);
      }
    case Request(request, now) =>
      if RequestRateShare(w.store, request, now).Ok? {
        RequestIsLegal(w, request, now);
        RequestKeepsTerms(w, request, now);
      }
    case ZeroStop(grant, expected) =>
      if ZeroStopRateShare(w.store, grant, expected).Ok? {
        ZeroStopIsLegal(w, grant, expected);
        ZeroStopKeepsTerms(w.store, grant, expected);
      }
  }

  lemma ReportEventIsSound(w: World, e: ReportEvent)
    requires Inv(w) && HonestReport(w, e)
    ensures Sound(w, AfterReport(w.store, e), {})
  {
    UnchangedIsSound(w);
    match e
    case Confirm(node, installation, grant, revision, applied) =>
      if ConfirmRateShare(w.store, node, installation, grant, revision, applied).Ok? {
        ConfirmIsLegal(w, node, installation, grant, revision, applied);
        ConfirmKeepsTerms(w, node, installation, grant, revision, applied);
      }
    case Acknowledge(node, installation, claims) =>
      if AcknowledgeConfiguration(w.store, node, installation, claims).Ok? {
        AcknowledgeIsLegal(w, node, installation, claims);
        AcknowledgeKeepsTerms(w, node, installation, claims);
      }
    case AcknowledgeUpdates(node, installation, base, entries) =>
      if AcknowledgeAuthority(w.store, node, installation, base, entries).Ok? {
        AcknowledgeUpdatesIsLegal(w, node, installation, base, entries);
        AcknowledgeUpdatesKeepsTerms(w, node, installation, base, entries);
      }
    case RecordStops(node, deployment, stopped) =>
      QuietIsLegal(w, RecordStoppedGrants(w.store, node, deployment, stopped));
      StopsDoNotMatter(w.store, RecordStoppedGrants(w.store, node, deployment, stopped).stops, w.store.nodes,
        w.store.fenced);
    case ClearStops(ids) =>
      QuietIsLegal(w, w.store.(stops := w.store.stops - ids));
      StopsDoNotMatter(w.store, w.store.stops - ids, w.store.nodes, w.store.fenced);
  }

  lemma LifecycleIsSound(w: World, operation: Id, call: LifecycleCall, newTerm: Id, now: int)
    requires Inv(w) && newTerm !in w.store.terms && Lifecycle(w.store, operation, call, newTerm, now).Ok?
    ensures Sound(w, Lifecycle(w.store, operation, call, newTerm, now).value.0, {})
  {
    LifecycleLeavesShares(w.store, operation, call, newTerm, now);
    UntouchedIsLegal(w, Lifecycle(w.store, operation, call, newTerm, now).value.0);
    LifecycleKeepsTerms(w.store, operation, call, newTerm, now);
  }

  lemma ReserveIsSound(w: World, id: Id, grant: Grant, ownBudget: bool, placement: bool, now: int)
    requires Inv(w) && ReserveGrant(w.store, id, grant, ownBudget, placement, now).Ok?
    ensures Sound(w, ReserveGrant(w.store, id, grant, ownBudget, placement, now).value, {})
  {
    QuietIsLegal(w, ReserveGrant(w.store, id, grant, ownBudget, placement, now).value);
    forall k | k in w.store.shares ensures k in w.store.grants {
      ShareIn(w, k);
    }
    ReserveKeepsTerms(w.store, id, grant, ownBudget, placement, now);
  }

  lemma ClientEditIsSound(w: World, id: Id, client: Client)
    requires Inv(w)
    requires if id in w.store.clients then client.current == w.store.clients[id].current
      && client.pending == w.store.clients[id].pending
             else UnusedClient(w.store, id) && client.current.None? && client.pending.None?
    ensures Sound(w, w.store.(clients := w.store.clients[id := client]), {})
  {
    QuietIsLegal(w, w.store.(clients := w.store.clients[id := client]));
    ClientEditKeepsTerms(w.store, w.store.(clients := w.store.clients[id := client]), id);
  }

  lemma ClientEventIsSound(w: World, e: ClientEvent)
    requires Inv(w) && FreshIds(w.store, e)
    ensures Sound(w, AfterClient(w.store, e), {})
  {
    UnchangedIsSound(w);
    match e
    case Call(operation, call, newTerm, now) =>
      if Lifecycle(w.store, operation, call, newTerm, now).Ok? {
        LifecycleIsSound(w, operation, call, newTerm, now);
      }
    case Reserve(id, reserved, ownBudget, placement, now) =>
      if ReserveGrant(w.store, id, reserved, ownBudget, placement, now).Ok? {
        ReserveIsSound(w, id, reserved, ownBudget, placement, now);
      }
    case BindClient(id, revision, generation) =>
      ClientEditIsSound(w, id, Client(true, false, revision, generation, None, None));
    case EditClient(id, panel, owned, revision, generation) =>
      if id in w.store.clients {
        ClientEditIsSound(w, id,
          w.store.clients[id].(panel := panel, owned := owned, revision := revision, generation := generation));
      }
    case EditNodes(nodes, fenced) =>
      QuietIsLegal(w, w.store.(nodes := nodes, fenced := fenced));
      StopsDoNotMatter(w.store, w.store.stops, nodes, fenced);
  }

  lemma EventIsSound(w: World, e: Event)
    requires Inv(w) && Honest(w, e) && !e.NodeApply?
    ensures Sound(w, StoreAfter(w.store, e), Requested(e))
  {
    match e
    case OfRates(rate) => RateEventIsSound(w, rate);
    case OfReport(report) => ReportEventIsSound(w, report);
    case OfClient(client) => ClientEventIsSound(w, client);
  }

  /** Every event of every kind keeps the whole invariant. */
  lemma EventKeepsInv(w: World, e: Event)
    requires Inv(w) && Honest(w, e)
    ensures Inv(Next(w, e))
  {
    if e.NodeApply? {
      ApplyKeepsShares(w, e.grant, e.applies);
    } else {
      EventIsSound(w, e);
      AdvanceKeepsShares(w, StoreAfter(w.store, e), Requested(e));
    }
  }

  /** A store that goes from `s` to `t` on an event takes every world it may be part
      of, whatever its nodes know and enforce, from the invariant to the invariant:
      outstanding rates still cover the nodes, and the terms still agree. */
  ghost predicate Serves(s: State, t: State, e: Event)
  {
    forall w: World :: w.store == s && Inv(w) && Honest(w, e) ==> Inv(Next(w, e)) && Next(w, e).store == t
  }

  lemma HandlerServes(s: State, e: Event, t: State)
    requires !e.NodeApply? && t == StoreAfter(s, e)
    ensures Serves(s, t, e)
  {
    forall w: World | w.store == s && Inv(w) && Honest(w, e) ensures Inv(Next(w, e)) && Next(w, e).store == t {
      EventKeepsInv(w, e);
    }
  }
}
