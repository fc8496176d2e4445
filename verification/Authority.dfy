/** The shared-rate authority and the client-term lifecycle as atomic database
    transactions (internal/controlplane/rates.go, configuration.go,
    authority_delivery.go, stop_configuration.go, client_lifecycle.go,
    client_drain.go, client_cancel.go). A transaction maps the tables before it
    to the tables after it, or fails and leaves them alone. */
module Authority {
  import opened MapSums
  import opened Rates
  import opened Results

  datatype Kind = Activation | Renewal | TrafficReset | UnknownKind

  datatype TermState = Active | Pending | Draining | Closed

  /** Digests stand for the payload they hash; 0 is a digest of the wrong length. */
  type Digest = nat

  datatype Node = Node(enabled: bool, installation: Id)

  datatype Client = Client(panel: bool, owned: bool, revision: int, generation: int, current: Option<Id>,
    pending: Option<Id>)

  datatype Term = Term(
    client: Id, number: int, kind: Kind, state: TermState, predecessor: Option<Id>, generation: int,
    duration: int, started: int, expires: int, rates: Pair, policy: Digest)

  datatype Grant = Grant(node: Id, installation: Id, runtime: string, client: Id, term: Id)

  datatype RateBudget = RateBudget(client: Id, term: Id, revision: int, desired: Pair)

  /** One node's part of a budget. `outstanding` bounds whatever the node may still enforce. */
  datatype Share = Share(budget: Id, node: Id, installation: Id, runtime: string, revision: int, applied: int,
    desired: Pair, outstanding: Pair)

  datatype Stop = Stop(deployment: int, rate: int)

  datatype Operation =
    | RateOperation(request: RateRequest, share: Share)
    | LifecycleOperation(call: LifecycleCall, result: TransitionResult)

  datatype RateRequest = RateRequest(operation: Id, grant: Id, budget: Id, node: Id, installation: Id, runtime: string,
    desired: Pair)

  datatype TermSpec = TermSpec(
    quota: int, unlimited: bool, openingUsed: int, openingUploaded: int, openingDownloaded: int, duration: int,
      expires: int, rates: Pair)

  datatype LifecycleCall =
    | Transition(client: Id, expectedRevision: int, expectedGeneration: int, expectedTerm: Id, policy: Digest,
      kind: Kind, spec: TermSpec)
    | Complete(client: Id, pendingTerm: Id, expectedRevision: int, expectedGeneration: int, policy: Digest)
    | Cancel(client: Id, pendingTerm: Id, expectedRevision: int, expectedGeneration: int)

  datatype TransitionResult = TransitionResult(client: Client, termId: Id, term: Term, pendingDrain: bool)

  datatype State = State(
    fenced: bool,
    nodes: map<Id, Node>,
    clients: map<Id, Client>,
    terms: map<Id, Term>,
    grants: map<Id, Grant>,
    budgets: map<Id, RateBudget>,
    shares: map<Id, Share>,
    stops: map<Id, Stop>,
    operations: map<Id, Operation>)

  datatype Direction = Upload | Download

  // ----- what is outstanding against a budget -----

  function InDirection(p: Pair, direction: Direction): Rate
  {
    if direction.Upload? then p.upload else p.download
  }

  function Counted(s: Share, budget: Id, direction: Direction): Rate
  {
    if s.budget == budget then InDirection(s.outstanding, direction) else BLOCKED
  }

  /** A table of rates fits a bound, by its true sums. */
  ghost predicate TableFits(bound: Rate, rates: map<Id, Rate>)
  {
    || bound.mode.Unlimited?
    || (&& MapSum(rates, UnlimitedOf) == 0
        && (bound.mode.Limited? || MapSum(rates, LimitedOf) == 0)
        && MapSum(rates, BitsOf) <= bound.bits
        && MapSum(rates, BurstOf) <= bound.burst)
  }

  /** What every share counts against a budget: its outstanding rate, or nothing. */
  function CountedRates(shares: map<Id, Share>, budget: Id, direction: Direction): map<Id, Rate>
  {
    map id | id in shares :: Counted(shares[id], budget, direction)
  }

  lemma MeasuresFollow(high: Rate, low: Rate)
    requires Covers(high, low) && UnlimitedOf(high) == 0
    ensures 0 <= UnlimitedOf(low) <= UnlimitedOf(high) && 0 <= LimitedOf(low) <= LimitedOf(high)
      && BitsOf(low) <= BitsOf(high) && BurstOf(low) <= BurstOf(high)
  {
  }

  /** Lowering rates never breaks a fit. */
  lemma TableFitsIsMonotone(bound: Rate, high: map<Id, Rate>, low: map<Id, Rate>)
    requires high.Keys == low.Keys && forall id :: id in high ==> Covers(high[id], low[id])
    requires TableFits(bound, high)
    ensures TableFits(bound, low)
  {
    if !bound.mode.Unlimited? {
      MapSumZero(high, UnlimitedOf);
      forall id | id in high
        ensures 0 <= UnlimitedOf(low[id]) <= UnlimitedOf(high[id]) && 0 <= LimitedOf(low[id]) <= LimitedOf(high[id])
        ensures BitsOf(low[id]) <= BitsOf(high[id]) && BurstOf(low[id]) <= BurstOf(high[id])
      {
        MeasuresFollow(high[id], low[id]);
      }
      SumsFollow(high, low);
    }
  }

  lemma SumsFollow(high: map<Id, Rate>, low: map<Id, Rate>)
    requires high.Keys == low.Keys
    requires forall id :: id in high ==>
      0 <= UnlimitedOf(low[id]) <= UnlimitedOf(high[id]) && 0 <= LimitedOf(low[id]) <= LimitedOf(high[id])
    requires forall id :: id in high ==> BitsOf(low[id]) <= BitsOf(high[id]) && BurstOf(low[id]) <= BurstOf(high[id])
    ensures 0 <= MapSum(low, UnlimitedOf) <= MapSum(high, UnlimitedOf)
      && 0 <= MapSum(low, LimitedOf) <= MapSum(high, LimitedOf)
    ensures MapSum(low, BitsOf) <= MapSum(high, BitsOf) && MapSum(low, BurstOf) <= MapSum(high, BurstOf)
  {
    MapSumMonotone(low, high, UnlimitedOf, UnlimitedOf);
    MapSumMonotone(low, high, LimitedOf, LimitedOf);
    MapSumMonotone(low, high, BitsOf, BitsOf);
    MapSumMonotone(low, high, BurstOf, BurstOf);
    MapSumNonNegative(low, UnlimitedOf);
    MapSumNonNegative(low, LimitedOf);
  }

  /** The shares of a budget fit its bound in both directions. */
  ghost predicate SharesFit(bound: Pair, shares: map<Id, Share>, budget: Id)
  {
    TableFits(bound.upload, CountedRates(shares, budget, Upload))
      && TableFits(bound.download, CountedRates(shares, budget, Download))
  }

  // ----- guards -----

  function LockNode(s: State, node: Id, installation: Id): Check
  {
    if node !in s.nodes then Fail(NotFound)
    else Need(s.nodes[node].enabled && s.nodes[node].installation == installation, Scope)
  }

  /** A client without a row is unmanaged and passes; a managed one must own the
      term, and with `active` the term must be the current active one. */
  function ManagedAuthority(s: State, client: Id, term: Id, active: bool): Result<Option<Term>>
  {
    if client !in s.clients then Ok(None)
    else if term !in s.terms || s.terms[term].client != client then Err(NotFound)
    else if active && !IsCurrent(s, client, term) then Err(Scope)
    else Ok(Some(s.terms[term]))
  }

  predicate IsCurrent(s: State, client: Id, term: Id)
    requires client in s.clients && term in s.terms
  {
    s.clients[client].panel && s.clients[client].current == Some(term) && s.terms[term].state == Active
  }

  predicate Expired(expires: int, now: int)
  {
    expires != 0 && expires <= now
  }

  // ----- rate budgets and shares -----

  function SetRateBudget(s: State, id: Id, client: Id, term: Id, revision: int, desired: Pair): Result<State>
  {
    if !(ValidId(id) && ValidId(client) && ValidId(term) && 0 < revision <= MAX_INT64 && ValidPair(desired))
      then Err(Invalid) else
    :- Need(!s.fenced, Recovery);
    var _ :- ManagedAuthority(s, client, term, true);
    var current := if id in s.budgets then s.budgets[id] else RateBudget(client, term, revision, desired);
    :- Need(current.client == client, Scope);
    :- Need(current.revision < revision
      || (current.revision == revision && current.desired == desired && current.term == term), Revision);
    Ok(s.(budgets := s.budgets[id := RateBudget(client, term, revision, desired)]))
  }

  predicate ValidRequest(request: RateRequest)
  {
    && ValidId(request.operation) && ValidId(request.grant) && ValidId(request.budget) && ValidId(request.node)
    && ValidId(request.installation) && ValidRuntime(request.runtime) && ValidPair(request.desired)
  }

  /** The share row a request would extend: the existing one in its budget, or a new one. */
  function ShareBefore(s: State, request: RateRequest): Share
  {
    if request.grant in s.shares && s.shares[request.grant].budget == request.budget then s.shares[request.grant]
    else Share(request.budget, request.node, request.installation, request.runtime, 0, 0, ZERO, ZERO)
  }

  function ShareAfter(s: State, request: RateRequest): Share
  {
    var before := ShareBefore(s, request);
    before.(revision := before.revision + 1, desired := request.desired,
      outstanding := EnvelopePair(before.outstanding, request.desired))
  }

  ghost function RequestRateShare(s: State, request: RateRequest, now: int): Result<(State, Share)>
  {
    if !ValidRequest(request) then Err(Invalid) else
    :- Need(!s.fenced, Recovery);
    if request.operation in s.operations then
      var op := s.operations[request.operation];
      if op.RateOperation? && op.request == request then Ok((s, op.share)) else Err(Conflict)
    else
      :- LockNode(s, request.node, request.installation);
      var grant :- Lookup(s.grants, request.grant);
      var term :- ManagedAuthority(s, grant.client, grant.term, false);
      var budget :- Lookup(s.budgets, request.budget);
      :- Need(grant.node == request.node && grant.installation == request.installation
        && grant.runtime == request.runtime && grant.client == budget.client, Scope);
      var before, after := ShareBefore(s, request), ShareAfter(s, request);
      :- Need(before.node == request.node && before.installation == request.installation
        && before.runtime == request.runtime, Scope);
      var raised := after.outstanding != before.outstanding;
      :- Need(raised ==> grant.term == budget.term, Scope);
      :- Need(raised && term.Some? ==> !Expired(term.value.expires, now), Scope);
      var _ :- if raised && term.Some? then ManagedAuthority(s, grant.client, grant.term, true) else Ok(None);
      :- Need(raised ==> SharesFit(budget.desired, s.shares[request.grant := after], request.budget), Error.Budget);
      :- Need(before.revision != MAX_INT64, Revision);
      :- Need(request.grant in s.shares ==> s.shares[request.grant].budget == request.budget, Scope);
      Ok((s.(shares := s.shares[request.grant := after],
        operations := s.operations[request.operation := RateOperation(request, after)]), after))
  }

  /** The only way `outstanding` shrinks: proof that the latest revision was applied. */
  function Settled(share: Share): Share
  {
    share.(applied := share.revision, outstanding := share.desired)
  }

  function ConfirmRateShare(s: State, node: Id, installation: Id, grant: Id, revision: int,
      applied: Pair): Result<State>
  {
    if !(ValidId(grant) && 0 < revision <= MAX_INT64 && ValidPair(applied)) then Err(Invalid) else
    :- Need(!s.fenced, Recovery);
    :- LockNode(s, node, installation);
    var share :- Lookup(s.shares, grant);
    :- Need(share.node == node && share.installation == installation, Scope);
    var _ :- Lookup(s.budgets, share.budget);
    :- Need(share.revision == revision && share.desired == applied, Revision);
    Ok(s.(shares := s.shares[grant := Settled(share)]))
  }

  /** What an applied deployment says of one grant: its runtime, rate revision and rates. */
  datatype RateClaim = RateClaim(runtime: string, revision: int, rates: Pair)

  ghost predicate ConfigurationMatches(s: State, node: Id, installation: Id, claims: map<Id, RateClaim>)
  {
    forall id :: id in claims && claims[id].revision != 0 ==>
      && id in s.shares
      && s.shares[id].node == node && s.shares[id].installation == installation
        && s.shares[id].runtime == claims[id].runtime
      && (s.shares[id].revision == claims[id].revision ==>
        s.shares[id].desired == claims[id].rates && s.shares[id].budget in s.budgets)
  }

  predicate Claimed(share: Share, id: Id, claims: map<Id, RateClaim>)
  {
    id in claims && claims[id].revision != 0 && share.revision == claims[id].revision
  }

  /** The rows an applied deployment settles: shares whose latest revision it carried. */
  function SettledRows(shares: map<Id, Share>, claims: map<Id, RateClaim>): map<Id, Share>
  {
    map id | id in claims && id in shares && Claimed(shares[id], id, claims) :: Settled(shares[id])
  }

  ghost function AcknowledgeConfiguration(s: State, node: Id, installation: Id, claims: map<Id,
      RateClaim>): Result<State>
  {
    if !ConfigurationMatches(s, node, installation, claims) then Err(Scope) else
    Ok(s.(shares := s.shares + SettledRows(s.shares, claims)))
  }

  /** One authority update of an acknowledged batch, already matched to its outbox row. */
  datatype AuthorityEntry = AuthorityEntry(client: Id, runtime: string, revision: int, enabled: bool, rates: Pair)

  ghost predicate EntriesMatch(s: State, node: Id, installation: Id, entries: map<Id, AuthorityEntry>)
  {
    forall id :: id in entries ==>
      && id in s.shares && entries[id].client in s.budgets
      && s.shares[id].node == node && s.shares[id].installation == installation
        && s.shares[id].runtime == entries[id].runtime
      && s.shares[id].budget == entries[id].client && s.shares[id].revision == entries[id].revision
      && s.shares[id].desired == entries[id].rates && (!entries[id].enabled ==> entries[id].rates == ZERO)
  }

  function EntryRows(shares: map<Id, Share>, entries: map<Id, AuthorityEntry>): map<Id, Share>
  {
    map id | id in entries && id in shares :: Settled(shares[id])
  }

  /** A disabled entry is a proven stop; an enabled one withdraws the stop. */
  function EntryStops(stops: map<Id, Stop>, base: int, entries: map<Id, AuthorityEntry>): map<Id, Stop>
  {
    (stops - entries.Keys) + map id | id in entries && !entries[id].enabled :: Stop(base, entries[id].revision)
  }

  ghost function AcknowledgeAuthority(s: State, node: Id, installation: Id, base: int, entries: map<Id,
      AuthorityEntry>): Result<State>
  {
    if !EntriesMatch(s, node, installation, entries) then Err(Revision) else
    Ok(s.(shares := s.shares + EntryRows(s.shares, entries), stops := EntryStops(s.stops, base, entries)))
  }

  /** A stop revokes the share: a new revision desiring nothing, the outstanding rate untouched. */
  function ZeroStopRateShare(s: State, grant: Id, expected: Share): Result<State>
  {
    var g :- Lookup(s.grants, grant);
    var client :- Lookup(s.clients, g.client);
    :- Need(client.owned, Scope);
    var pool :- Lookup(s.budgets, expected.budget);
    :- Need(pool.client == g.client, NotFound);
    var share :- Lookup(s.shares, grant);
    :- Need(share == expected && share.revision != MAX_INT64, Revision);
    Ok(s.(shares := s.shares[grant := share.(revision := share.revision + 1, desired := ZERO)]))
  }

  /** A disabled, blocked grant of an applied deployment. */
  datatype StopClaim = StopClaim(runtime: string, rate: int)

  predicate ProvesStop(share: Share, node: Id, claim: StopClaim)
  {
    && share.node == node && share.runtime == claim.runtime
    && share.revision == claim.rate && share.applied == share.revision && share.outstanding == ZERO
  }

  function StopRows(shares: map<Id, Share>, node: Id, deployment: int, claims: map<Id, StopClaim>): map<Id, Stop>
  {
    map id | id in claims && id in shares
      && ProvesStop(shares[id], node, claims[id]) :: Stop(deployment, shares[id].revision)
  }

  function RecordStoppedGrants(s: State, node: Id, deployment: int, claims: map<Id, StopClaim>): State
  {
    s.(stops := s.stops + StopRows(s.shares, node, deployment, claims))
  }

  /** A term's grants are stopped when each has a share in the client's pool,
      nothing outstanding, and a recorded stop no newer than what was applied. */
  predicate Stopped(s: State, client: Id, term: Id)
  {
    forall id :: id in s.grants && s.grants[id].client == client && s.grants[id].term == term ==>
      GrantStopped(s, id, client)
  }

  predicate GrantStopped(s: State, id: Id, client: Id)
  {
    && id in s.shares && id in s.stops
    && s.shares[id].budget == client && s.stops[id].deployment != 0 && s.stops[id].rate <= s.shares[id].applied
    && s.shares[id].outstanding == ZERO
  }

  // ----- client terms -----

  predicate Exceeds(a: int, b: int)
  {
    a < 0 || b < 0 || b > MAX_INT64 - a
  }

  predicate ValidTermSpec(kind: Kind, spec: TermSpec)
  {
    && !Exceeds(spec.openingUploaded, spec.openingDownloaded)
    && spec.openingUploaded + spec.openingDownloaded == spec.openingUsed
    && 0 <= spec.quota && (spec.unlimited ==> spec.quota == 0) && (!spec.unlimited ==> spec.openingUsed <= spec.quota)
    && 0 <= spec.duration && 0 <= spec.expires && (spec.duration == 0 || spec.expires == 0) && ValidPair(spec.rates)
    && match kind
       case Activation => true
       case Renewal => spec.openingUsed == 0 && spec.duration > 0 && spec.expires == 0
       case TrafficReset => spec.openingUsed == 0 && spec.duration == 0 && spec.expires == 0
       case UnknownKind => false
  }

  predicate ValidCall(call: LifecycleCall)
  {
    && ValidId(call.client) && 0 < call.expectedRevision <= MAX_INT64 && 0 < call.expectedGeneration <= MAX_INT64
    && match call
       case Transition(_, _, _, _, policy, kind, spec) => policy != 0 && ValidTermSpec(kind, spec)
       case Complete(_, pendingTerm, _, _, policy) => ValidId(pendingTerm) && policy != 0
       case Cancel(_, pendingTerm, _, _) => ValidId(pendingTerm)
  }

  function LockClient(s: State, id: Id): Result<Client>
  {
    var client :- Lookup(s.clients, id);
    :- Need(client.panel, Scope);
    Ok(client)
  }

  function StartTerm(term: Term, now: int): Result<Term>
  {
    if term.duration > MAX_INT64 - now then Err(Invalid) else
    var expires := if term.duration > 0 then now + term.duration else term.expires;
    :- Need(term.kind == TrafficReset || !Expired(expires, now), Invalid);
    Ok(term.(started := now, expires := expires))
  }

  function ActivateRatePool(s: State, client: Id, termId: Id, term: Term): Result<State>
  {
    var revision := if client in s.budgets then s.budgets[client].revision else 0;
    :- Need(revision != MAX_INT64, Revision);
    SetRateBudget(s, client, client, termId, revision + 1, term.rates)
  }

  /** The highest number among a client's terms, 0 before the first. */
  ghost predicate LastNumber(terms: map<Id, Term>, client: Id, n: int)
  {
    && 0 <= n && (forall id :: id in terms && terms[id].client == client ==> terms[id].number <= n)
    && (n == 0 || exists id :: id in terms && terms[id].client == client && terms[id].number == n)
  }

  ghost function NumberOf(terms: map<Id, Term>, client: Id): int
    decreases |terms|
  {
    if terms.Keys == {} then 0 else
      var id := Pick(terms);
      var rest := NumberOf(terms - {id}, client);
      if terms[id].client == client && terms[id].number > rest then terms[id].number else rest
  }

  lemma {:induction false} NumberIsLast(terms: map<Id, Term>, client: Id)
    ensures LastNumber(terms, client, NumberOf(terms, client))
    decreases |terms|
  {
    if terms.Keys != {} {
      var id := Pick(terms);
      NumberIsLast(terms - {id}, client);
      assert forall k :: k in terms && k != id ==> k in terms - {id} && (terms - {id})[k] == terms[k];
    }
  }

  function NewTerm(call: LifecycleCall, client: Client, number: int): Term
    requires call.Transition?
  {
    Term(call.client, number, call.kind, Active, None, client.generation, call.spec.duration, 0, call.spec.expires,
      call.spec.rates, call.policy)
  }

  /** A client's first term starts at once. */
  function StartFirst(s: State, call: LifecycleCall, client: Client, number: int, newTerm: Id,
      now: int): Result<(State, TransitionResult)>
    requires call.Transition?
  {
    if client.current.Some? then Err(Conflict) else
    var started :- StartTerm(NewTerm(call, client, number), now);
    var owner := client.(current := Some(newTerm), revision := client.revision + 1);
    var s1 := s.(clients := s.clients[call.client := owner], terms := s.terms[newTerm := started]);
    var s2 :- ActivateRatePool(s1, call.client, newTerm, started);
    Ok((s2, TransitionResult(owner, newTerm, started, false)))
  }

  /** A successor waits behind its predecessor, which starts draining. */
  function StartSuccessor(s: State, call: LifecycleCall, client: Client, number: int, newTerm: Id,
      now: int): Result<(State, TransitionResult)>
    requires call.Transition?
  {
    if client.current.None? then Err(Scope) else
    var previousId := client.current.value;
    var previous :- Lookup(s.terms, previousId);
    :- Need(previous.client == call.client, NotFound);
    :- Need(previous.state == Active && previous.number != MAX_INT64
      && (call.kind == Renewal ==> Expired(previous.expires, now)), Revision);
    var term := NewTerm(call, client, number);
    var pending := term.(predecessor := Some(previousId), state := Pending, expires := if call.kind == TrafficReset
      then previous.expires else term.expires);
    var owner := client.(pending := Some(newTerm), revision := client.revision + 1);
    Ok((s.(clients := s.clients[call.client := owner],
      terms := s.terms[previousId := previous.(state := Draining)][newTerm := pending]),
        TransitionResult(owner, newTerm, pending, true)))
  }

  /** A client that no transition is pending for, at the revision and term the call expects. */
  function LockTransition(s: State, call: LifecycleCall): Result<Client>
    requires call.Transition?
  {
    var client :- LockClient(s, call.client);
    :- Need(client.revision == call.expectedRevision && client.generation == call.expectedGeneration
      && client.revision != MAX_INT64, Revision);
    :- Need(client.pending.None?, Drain);
    :- Need((if client.current.Some? then client.current.value else 0) == call.expectedTerm, Revision);
    Ok(client)
  }

  ghost function ApplyTransition(s: State, call: LifecycleCall, newTerm: Id, now: int): Result<(State,
      TransitionResult)>
    requires call.Transition?
  {
    var client :- LockTransition(s, call);
    StartNumbered(s, call, client, NumberOf(s.terms, call.client), newTerm, now)
  }

  /** The next term, numbered after the client's last. */
  function StartNumbered(s: State, call: LifecycleCall, client: Client, last: int, newTerm: Id,
      now: int): Result<(State, TransitionResult)>
    requires call.Transition?
  {
    if last == MAX_INT64 then Err(Revision)
    else if call.kind == Activation then StartFirst(s, call, client, last + 1, newTerm, now)
    else StartSuccessor(s, call, client, last + 1, newTerm, now)
  }

  /** The checks shared by completing and cancelling: the client's pending term
      follows its current one, which is draining. */
  function LockPending(s: State, call: LifecycleCall): Result<(Client, Term, Id, Term)>
    requires call.Complete? || call.Cancel?
  {
    var client :- LockClient(s, call.client);
    :- Need(client.revision == call.expectedRevision && client.generation == call.expectedGeneration
      && client.revision != MAX_INT64
      && client.pending == Some(call.pendingTerm) && client.current.Some?, Revision);
    var term :- Lookup(s.terms, call.pendingTerm);
    var previousId := client.current.value;
    var previous :- Lookup(s.terms, previousId);
    :- Need(term.client == call.client && previous.client == call.client, NotFound);
    :- Need(term.state == Pending && previous.state == Draining && term.predecessor == Some(previousId), Revision);
    Ok((client, term, previousId, previous))
  }

  function ApplyComplete(s: State, call: LifecycleCall, now: int): Result<(State, TransitionResult)>
    requires call.Complete?
  {
    var (client, term, previousId, previous) :- LockPending(s, call);
    :- Need(term.policy == call.policy, Revision);
    var pool :- Lookup(s.budgets, call.client);
    :- Need(pool.client == call.client, NotFound);
    :- Need(Stopped(s, call.client, previousId), Drain);
    var started :- StartTerm(term, now);
    HandOver(s, call, client, started, previousId, previous)
  }

  /** The started term becomes current and active, its predecessor closed. */
  function HandOver(s: State, call: LifecycleCall, client: Client, started: Term, previousId: Id,
      previous: Term): Result<(State, TransitionResult)>
    requires call.Complete?
  {
    var active := started.(state := Active, generation := client.generation);
    var owner := client.(current := Some(call.pendingTerm), pending := None, revision := client.revision + 1);
    var s1 := s.(clients := s.clients[call.client := owner],
      terms := s.terms[call.pendingTerm := active][previousId := previous.(state := Closed)]);
    var s2 :- ActivateRatePool(s1, call.client, call.pendingTerm, active);
    Ok((s2, TransitionResult(owner, call.pendingTerm, active, false)))
  }

  function ApplyCancel(s: State, call: LifecycleCall): Result<(State, TransitionResult)>
    requires call.Cancel?
  {
    var (client, term, previousId, previous) :- LockPending(s, call);
    var owner := client.(pending := None, revision := client.revision + 1);
    var resumed := previous.(state := Active);
    Ok((s.(clients := s.clients[call.client := owner],
      terms := s.terms[call.pendingTerm := term.(state := Closed)][previousId := resumed]),
        TransitionResult(owner, previousId, resumed, false)))
  }

  ghost function Apply(s: State, call: LifecycleCall, newTerm: Id, now: int): Result<(State, TransitionResult)>
  {
    match call
    case Transition(_, _, _, _, _, _, _) => ApplyTransition(s, call, newTerm, now)
    case Complete(_, _, _, _, _) => ApplyComplete(s, call, now)
    case Cancel(_, _, _, _) => ApplyCancel(s, call)
  }

  /** Every lifecycle call runs once per operation id; a replay returns the stored result. */
  ghost function Lifecycle(s: State, operation: Id, call: LifecycleCall, newTerm: Id, now: int): Result<(State,
      TransitionResult)>
  {
    if !ValidCall(call) then Err(Invalid) else
    :- Need(ValidId(operation), Invalid);
    :- Need(!s.fenced, Recovery);
    if operation in s.operations then
      var op := s.operations[operation];
      if op.LifecycleOperation? && op.call == call then Ok((s, op.result)) else Err(Conflict)
    else
      var (s1, result) :- Apply(s, call, newTerm, now);
      Ok((s1.(operations := s1.operations[operation := LifecycleOperation(call, result)]), result))
  }

  /** A new client row is bound under an id nothing refers to yet. */
  predicate UnusedClient(s: State, id: Id)
  {
    && ValidId(id) && id !in s.clients
    && (forall g :: g in s.grants ==> s.grants[g].client != id)
    && forall t :: t in s.terms ==> s.terms[t].client != id
  }

  /** The guard every reservation passes before it may create or extend a grant. */
  function GuardReservation(s: State, grant: Grant, ownBudget: bool, placement: bool, now: int): Check
  {
    match ManagedAuthority(s, grant.client, grant.term, true)
    case Err(e) => Fail(e)
    case Ok(None) => Pass
    case Ok(Some(term)) =>
      if !ownBudget || Expired(term.expires, now) || (s.clients[grant.client].owned && !placement) then Fail(Scope)
        else Pass
  }

  function ReserveGrant(s: State, id: Id, grant: Grant, ownBudget: bool, placement: bool, now: int): Result<State>
  {
    if !ValidId(id) then Err(Invalid) else
    :- Need(!s.fenced, Recovery);
    :- LockNode(s, grant.node, grant.installation);
    :- GuardReservation(s, grant, ownBudget, placement, now);
    :- Need(id in s.grants ==> s.grants[id] == grant, Scope);
    Ok(s.(grants := s.grants[id := grant]))
  }
}
