/** What every transaction of the authority accepts and what it writes, said row
    by row of the tables before and after it. Nothing here names a transaction:
    the lemmas at the end of each part tie these relations to `Authority`. */
module AuthorityEffects {
  import opened MapSums
  import opened Rates
  import opened Results
  import opened Authority

  // ----- guards, as facts about rows -----

  predicate NodeServes(s: State, node: Id, installation: Id)
  {
    node in s.nodes && s.nodes[node].enabled && s.nodes[node].installation == installation
  }

  /** A client without a row manages nothing; one with a row has to own the term. */
  predicate OwnsTerm(s: State, client: Id, term: Id)
  {
    client in s.clients ==> term in s.terms && s.terms[term].client == client
  }

  predicate RunsTerm(s: State, client: Id, term: Id)
  {
    client in s.clients ==>
      && term in s.terms && s.terms[term].client == client && s.terms[term].state == Active
      && s.clients[client].panel && s.clients[client].current == Some(term)
  }

  predicate Outlived(s: State, client: Id, term: Id, now: int)
  {
    client in s.clients && term in s.terms && s.terms[term].expires != 0 && s.terms[term].expires <= now
  }

  // ----- requests for a rate share -----

  /** The least valid rate that covers two others. */
  ghost predicate Least(r: Rate, a: Rate, b: Rate)
  {
    Valid(r) && Covers(r, a) && Covers(r, b) && forall c :: Valid(c) && Covers(c, a) && Covers(c, b) ==> Covers(c, r)
  }

  /** What a grant may already enforce: nothing without a share. */
  function Standing(s: State, grant: Id): Pair
  {
    if grant in s.shares then s.shares[grant].outstanding else Pair(Rate(Blocked, 0, 0), Rate(Blocked, 0, 0))
  }

  /** The share a request leaves: its own scope and desired rates, one revision on, and
      per direction the least rate over what may be enforced already and what is asked. */
  ghost predicate SharePut(s: State, request: RateRequest, share: Share)
  {
    var standing := Standing(s, request.grant);
    && share.budget == request.budget && share.node == request.node && share.installation == request.installation
    && share.runtime == request.runtime && share.desired == request.desired
    && share.revision == (if request.grant in s.shares then s.shares[request.grant].revision else 0) + 1
    && share.applied == (if request.grant in s.shares then s.shares[request.grant].applied else 0)
    && (ValidPair(standing) ==>
      && Least(share.outstanding.upload, standing.upload, request.desired.upload)
      && Least(share.outstanding.download, standing.download, request.desired.download))
  }

  /** Only the grant's share and the operation's record are written. */
  ghost predicate Asked(s: State, t: State, request: RateRequest, share: Share)
  {
    && SharePut(s, request, share)
    && t == s.(shares := s.shares[request.grant := share],
      operations := s.operations[request.operation := RateOperation(request, share)])
  }

  /** The rows a request refers to exist and agree with it. */
  predicate InScope(s: State, request: RateRequest)
  {
    && NodeServes(s, request.node, request.installation)
    && request.grant in s.grants && request.budget in s.budgets
    && var grant := s.grants[request.grant];
    && grant.node == request.node && grant.installation == request.installation && grant.runtime == request.runtime
    && grant.client == s.budgets[request.budget].client && OwnsTerm(s, grant.client, grant.term)
    && (request.grant in s.shares ==>
      && var share := s.shares[request.grant];
      && share.budget == request.budget && share.node == request.node && share.installation == request.installation
      && share.runtime == request.runtime && share.revision != MAX_INT64)
  }

  /** Widening what may be enforced takes the budget's own, current and unexpired term,
      and room for the wider rates beside every other share of the budget. */
  ghost predicate MayWiden(s: State, request: RateRequest, now: int)
    requires InScope(s, request)
  {
    var grant, budget, standing := s.grants[request.grant], s.budgets[request.budget], Standing(s, request.grant);
    var wider := Pair(Envelope(standing.upload, request.desired.upload),
      Envelope(standing.download, request.desired.download));
    && grant.term == budget.term && RunsTerm(s, grant.client, grant.term)
    && !Outlived(s, grant.client, grant.term, now)
    && SharesFit(budget.desired, s.shares[request.grant := Share(request.budget, request.node, request.installation,
      request.runtime, 0, 0, wider, wider)], request.budget)
  }

  /** A request widens unless what may be enforced already covers it both ways. */
  predicate MustWiden(s: State, request: RateRequest)
  {
    || !Covers(Standing(s, request.grant).upload, request.desired.upload)
    || !Covers(Standing(s, request.grant).download, request.desired.download)
  }

  ghost predicate MayAsk(s: State, request: RateRequest, now: int)
  {
    && request.operation !in s.operations && InScope(s, request)
    && (!MustWiden(s, request) || MayWiden(s, request, now))
  }

  predicate WellFormed(s: State, request: RateRequest)
  {
    && request.operation != 0 && request.grant != 0 && request.budget != 0 && request.node != 0
    && request.installation != 0 && ValidRuntime(request.runtime)
    && Valid(request.desired.upload) && Valid(request.desired.download) && !s.fenced
  }

  /** A repeated request gives the recorded share back, a new one is taken exactly when
      it may be, and a refused one leaves the tables alone. */
  ghost predicate RequestDone(s: State, t: State, request: RateRequest, now: int, r: Result<Share>)
  {
    && (r.Err? ==> t == s)
    && (r.Ok? && request.operation in s.operations ==>
      t == s && s.operations[request.operation] == RateOperation(request, r.value))
    && (r.Ok? && request.operation !in s.operations ==> Asked(s, t, request, r.value))
    && (ValidPair(Standing(s, request.grant)) ==>
      (r.Ok? <==> WellFormed(s, request) && (Repeats(s, request) || MayAsk(s, request, now))))
  }

  predicate Repeats(s: State, request: RateRequest)
  {
    && request.operation in s.operations && s.operations[request.operation].RateOperation?
    && s.operations[request.operation].request == request
  }

  lemma EnvelopeIsLeast(a: Rate, b: Rate)
    requires Valid(a) && Valid(b)
    ensures Least(Envelope(a, b), a, b)
    ensures Envelope(a, b) == a <==> Covers(a, b)
  {
  }

  /** The share a request computes is the one described. */
  lemma AfterIsPut(s: State, request: RateRequest)
    requires ValidPair(request.desired) && InScope(s, request)
    ensures SharePut(s, request, ShareAfter(s, request))
    ensures ValidPair(Standing(s, request.grant)) ==>
      (ShareAfter(s, request).outstanding != ShareBefore(s, request).outstanding <==> MustWiden(s, request))
  {
    var standing := Standing(s, request.grant);
    if ValidPair(standing) {
      EnvelopeIsLeast(standing.upload, request.desired.upload);
      EnvelopeIsLeast(standing.download, request.desired.download);
    }
  }

  /** Only the outstanding rates of a budget's shares decide whether they fit. */
  lemma SameRoom(bound: Pair, shares: map<Id, Share>, id: Id, a: Share, b: Share, budget: Id)
    requires a.budget == b.budget == budget && a.outstanding == b.outstanding
    ensures SharesFit(bound, shares[id := a], budget) <==> SharesFit(bound, shares[id := b], budget)
  {
    assert CountedRates(shares[id := a], budget, Upload) == CountedRates(shares[id := b], budget, Upload);
    assert CountedRates(shares[id := a], budget, Download) == CountedRates(shares[id := b], budget, Download);
  }

  ghost function Left<T>(r: Result<(State, T)>, s: State): State
  {
    if r.Ok? then r.value.0 else s
  }

  ghost function Given<T>(r: Result<(State, T)>): Result<T>
  {
    match r case Ok(v) => Ok(v.1) case Err(e) => Err(e)
  }

  lemma OutOfScopeIsRefused(s: State, request: RateRequest, now: int)
    requires WellFormed(s, request) && request.operation !in s.operations && !InScope(s, request)
    ensures RequestRateShare(s, request, now).Err?
  {
  }

  lemma WiderFits(s: State, request: RateRequest)
    requires WellFormed(s, request) && InScope(s, request)
    ensures var after, standing := ShareAfter(s, request), Standing(s, request.grant);
      var wider := Pair(Envelope(standing.upload, request.desired.upload),
        Envelope(standing.download, request.desired.download));
      SharesFit(s.budgets[request.budget].desired, s.shares[request.grant := after], request.budget) <==>
        SharesFit(s.budgets[request.budget].desired, s.shares[request.grant := Share(request.budget, request.node,
          request.installation, request.runtime, 0, 0, wider, wider)], request.budget)
  {
    var standing := Standing(s, request.grant);
    var wider := Pair(Envelope(standing.upload, request.desired.upload),
      Envelope(standing.download, request.desired.download));
    SameRoom(s.budgets[request.budget].desired, s.shares, request.grant, ShareAfter(s, request),
      Share(request.budget, request.node, request.installation, request.runtime, 0, 0, wider, wider), request.budget);
  }

  lemma InScopeIsDecided(s: State, request: RateRequest, now: int)
    requires WellFormed(s, request) && request.operation !in s.operations && InScope(s, request)
    requires MustWiden(s, request) <==> ShareAfter(s, request).outstanding != ShareBefore(s, request).outstanding
    ensures RequestRateShare(s, request, now).Ok? <==> (MustWiden(s, request) ==> MayWiden(s, request, now))
  {
    WiderFits(s, request);
  }

  lemma AcceptedIsAsked(s: State, request: RateRequest, now: int)
    requires request.operation !in s.operations && RequestRateShare(s, request, now).Ok?
    ensures InScope(s, request) && ValidPair(request.desired)
    ensures var (t, share) := RequestRateShare(s, request, now).value;
      share == ShareAfter(s, request) && t == s.(shares := s.shares[request.grant := share],
        operations := s.operations[request.operation := RateOperation(request, share)])
  {
  }

  lemma RequestDoes(s: State, request: RateRequest, now: int)
    ensures var r := RequestRateShare(s, request, now); RequestDone(s, Left(r, s), request, now, Given(r))
  {
    var r := RequestRateShare(s, request, now);
    if request.operation !in s.operations && WellFormed(s, request) {
      if r.Ok? {
        AcceptedIsAsked(s, request, now);
      }
      if InScope(s, request) {
        AfterIsPut(s, request);
        if ValidPair(Standing(s, request.grant)) {
          InScopeIsDecided(s, request, now);
        }
      } else {
        OutOfScopeIsRefused(s, request, now);
      }
    }
  }

  // ----- client terms -----

  /** The client's row stands where the call expects it, with one more revision left. */
  predicate ClientReady(s: State, id: Id, revision: int, generation: int)
  {
    && id in s.clients && s.clients[id].panel && s.clients[id].revision == revision
    && s.clients[id].generation == generation && revision != MAX_INT64
  }

  /** The client's rate pool is its own, with one more revision left, or there is none yet. */
  predicate PoolReady(s: State, client: Id)
  {
    client in s.budgets ==> s.budgets[client].client == client && 0 <= s.budgets[client].revision < MAX_INT64
  }

  /** The pool moves to a term and its rates, one revision on. */
  predicate PoolMoved(s: State, t: State, client: Id, term: Id, rates: Pair)
  {
    t.budgets == s.budgets[client := RateBudget(client, term,
      (if client in s.budgets then s.budgets[client].revision else 0) + 1, rates)]
  }

  /** Only the tables a lifecycle call may write differ. */
  predicate OnlyTerms(s: State, t: State)
  {
    t == s.(clients := t.clients, terms := t.terms, budgets := t.budgets)
  }

  /** A term that starts `now`: its duration, if it has one, sets its expiry. */
  predicate Begun(row: Term, now: int, duration: int, created: int)
  {
    row.started == now && row.expires == if duration > 0 then now + duration else created
  }

  /** It may start unless the clock overflows or, but for a traffic reset, it is over already. */
  predicate MayBegin(kind: Kind, now: int, duration: int, created: int)
  {
    && now + duration <= MAX_INT64
    && (kind != TrafficReset ==> duration > 0 || created == 0 || created > now)
  }

  /** The row of a term made by a call, but for what depends on its predecessor. */
  ghost predicate Made(s: State, call: LifecycleCall, row: Term)
    requires call.Transition?
  {
    && row.client == call.client && row.kind == call.kind && LastNumber(s.terms, call.client, row.number - 1)
    && call.client in s.clients && row.generation == s.clients[call.client].generation
    && row.duration == call.spec.duration && row.rates == call.spec.rates && row.policy == call.policy
  }

  /** A first term: active from now, the client's pool following it. */
  ghost predicate Activated(s: State, t: State, call: LifecycleCall, newTerm: Id, now: int, r: TransitionResult)
    requires call.Transition?
  {
    && OnlyTerms(s, t) && Made(s, call, r.term) && Begun(r.term, now, call.spec.duration, call.spec.expires)
    && r.term.state == Active && r.term.predecessor == None && t.terms == s.terms[newTerm := r.term]
    && var was := s.clients[call.client];
    && r.client == Client(was.panel, was.owned, was.revision + 1, was.generation, Some(newTerm), None)
    && t.clients == s.clients[call.client := r.client] && PoolMoved(s, t, call.client, newTerm, call.spec.rates)
    && r.termId == newTerm && !r.pendingDrain
  }

  ghost predicate MayActivate(s: State, call: LifecycleCall, now: int)
    requires call.Transition?
  {
    && ClientReady(s, call.client, call.expectedRevision, call.expectedGeneration) && call.expectedTerm == 0
    && s.clients[call.client].current == None && s.clients[call.client].pending == None
    && !LastNumber(s.terms, call.client, MAX_INT64) && PoolReady(s, call.client)
    && MayBegin(Activation, now, call.spec.duration, call.spec.expires)
  }

  /** A successor: pending behind the current term, which drains. A traffic reset takes
      the expiry of its predecessor, a renewal waits for its own start. */
  ghost predicate Queued(s: State, t: State, call: LifecycleCall, newTerm: Id, r: TransitionResult)
    requires call.Transition?
  {
    && OnlyTerms(s, t) && t.budgets == s.budgets && Made(s, call, r.term)
    && var was := s.clients[call.client];
    && was.current.Some? && was.current.value in s.terms
    && var previous := s.terms[was.current.value];
    && r.term.state == Pending && r.term.predecessor == was.current && r.term.started == 0
    && r.term.expires == (if call.kind == TrafficReset then previous.expires else call.spec.expires)
    && t.terms == s.terms[was.current.value := previous.(state := Draining)][newTerm := r.term]
    && r.client == Client(was.panel, was.owned, was.revision + 1, was.generation, was.current, Some(newTerm))
    && t.clients == s.clients[call.client := r.client] && r.termId == newTerm && r.pendingDrain
  }

  ghost predicate MayQueue(s: State, call: LifecycleCall, now: int)
    requires call.Transition?
  {
    && ClientReady(s, call.client, call.expectedRevision, call.expectedGeneration)
    && s.clients[call.client].current.Some? && s.clients[call.client].current.value == call.expectedTerm
    && s.clients[call.client].pending == None && !LastNumber(s.terms, call.client, MAX_INT64)
    && MayFollow(s, call, call.expectedTerm, now)
  }

  /** A term of the client that a successor may follow: active, and over if it is to be renewed. */
  predicate MayFollow(s: State, call: LifecycleCall, term: Id, now: int)
    requires call.Transition?
  {
    && term in s.terms && s.terms[term].client == call.client && s.terms[term].state == Active
    && s.terms[term].number != MAX_INT64
    && (call.kind == Renewal ==> s.terms[term].expires != 0 && s.terms[term].expires <= now)
  }

  /** A client's pending term and the draining one it follows. */
  predicate Waiting(s: State, client: Id, pending: Id)
  {
    && client in s.clients && s.clients[client].pending == Some(pending) && s.clients[client].current.Some?
    && pending in s.terms && s.clients[client].current.value in s.terms
    && var current := s.clients[client].current.value;
    && s.terms[pending].client == client && s.terms[current].client == client
    && s.terms[pending].state == Pending && s.terms[current].state == Draining
    && s.terms[pending].predecessor == Some(current)
  }

  /** Every grant of a term has a share in the client's pool with nothing outstanding,
      and a recorded stop no newer than what its node applied. */
  predicate Drained(s: State, client: Id, term: Id)
  {
    forall id :: id in s.grants && s.grants[id].client == client && s.grants[id].term == term ==>
      && id in s.shares && id in s.stops && s.shares[id].budget == client
      && s.shares[id].outstanding == Pair(Rate(Blocked, 0, 0), Rate(Blocked, 0, 0))
      && s.stops[id].deployment != 0 && s.stops[id].rate <= s.shares[id].applied
  }

  /** The pending term starts now and becomes current, its predecessor is closed. */
  ghost predicate Completed(s: State, t: State, call: LifecycleCall, now: int, r: TransitionResult)
    requires call.Complete?
  {
    && OnlyTerms(s, t) && Waiting(s, call.client, call.pendingTerm)
    && var was, waited := s.clients[call.client], s.terms[call.pendingTerm];
    && Begun(r.term, now, waited.duration, waited.expires)
    && r.term == waited.(state := Active, generation := was.generation, started := r.term.started,
      expires := r.term.expires)
    && t.terms ==
      s.terms[call.pendingTerm := r.term][was.current.value := s.terms[was.current.value].(state := Closed)]
    && r.client == Client(was.panel, was.owned, was.revision + 1, was.generation, Some(call.pendingTerm), None)
    && t.clients == s.clients[call.client := r.client]
    && PoolMoved(s, t, call.client, call.pendingTerm, waited.rates)
    && r.termId == call.pendingTerm && !r.pendingDrain
  }

  ghost predicate MayComplete(s: State, call: LifecycleCall, now: int)
    requires call.Complete?
  {
    && ClientReady(s, call.client, call.expectedRevision, call.expectedGeneration)
    && Waiting(s, call.client, call.pendingTerm) && s.terms[call.pendingTerm].policy == call.policy
    && call.client in s.budgets && PoolReady(s, call.client) && ValidPair(s.terms[call.pendingTerm].rates)
    && Drained(s, call.client, s.clients[call.client].current.value)
    && MayBegin(s.terms[call.pendingTerm].kind, now, s.terms[call.pendingTerm].duration,
      s.terms[call.pendingTerm].expires)
  }

  /** The pending term is closed and its predecessor active again. */
  ghost predicate Cancelled(s: State, t: State, call: LifecycleCall, r: TransitionResult)
    requires call.Cancel?
  {
    && OnlyTerms(s, t) && t.budgets == s.budgets && Waiting(s, call.client, call.pendingTerm)
    && var was := s.clients[call.client];
    && r.termId == was.current.value && r.term == s.terms[r.termId].(state := Active) && !r.pendingDrain
    && t.terms == s.terms[call.pendingTerm := s.terms[call.pendingTerm].(state := Closed)][r.termId := r.term]
    && r.client == Client(was.panel, was.owned, was.revision + 1, was.generation, was.current, None)
    && t.clients == s.clients[call.client := r.client]
  }

  predicate MayCancel(s: State, call: LifecycleCall)
    requires call.Cancel?
  {
    && ClientReady(s, call.client, call.expectedRevision, call.expectedGeneration)
    && Waiting(s, call.client, call.pendingTerm)
  }

  /** What an accepted call does to the tables, whichever it is. */
  ghost predicate CallDone(s: State, t: State, call: LifecycleCall, newTerm: Id, now: int, r: TransitionResult)
  {
    match call
    case Transition(_, _, _, _, _, kind, _) =>
      if kind == Activation then Activated(s, t, call, newTerm, now, r) else Queued(s, t, call, newTerm, r)
    case Complete(_, _, _, _, _) => Completed(s, t, call, now, r)
    case Cancel(_, _, _, _) => Cancelled(s, t, call, r)
  }

  ghost predicate MayCall(s: State, call: LifecycleCall, now: int)
  {
    match call
    case Transition(_, _, _, _, _, kind, _) => if kind == Activation then MayActivate(s, call, now)
      else MayQueue(s, call, now)
    case Complete(_, _, _, _, _) => MayComplete(s, call, now)
    case Cancel(_, _, _, _) => MayCancel(s, call)
  }

  /** A call is taken exactly when it may be; otherwise the tables are left alone. */
  ghost predicate CallDecided(s: State, t: State, call: LifecycleCall, newTerm: Id, now: int,
      r: Result<TransitionResult>)
  {
    && (r.Ok? <==> MayCall(s, call, now))
    && (r.Ok? ==> CallDone(s, t, call, newTerm, now, r.value))
    && (r.Err? ==> t == s)
  }

  lemma LastIsUnique(terms: map<Id, Term>, client: Id, m: int, n: int)
    requires LastNumber(terms, client, m) && LastNumber(terms, client, n)
    ensures m == n
  {
  }

  lemma PoolActivates(s: State, client: Id, termId: Id, term: Term)
    requires ValidId(client) && ValidId(termId) && !s.fenced && RunsTerm(s, client, termId)
    ensures var r := ActivateRatePool(s, client, termId, term);
      && (r.Ok? <==> PoolReady(s, client) && ValidPair(term.rates))
      && (r.Ok? ==> r.value == s.(budgets := r.value.budgets) && PoolMoved(s, r.value, client, termId, term.rates))
  {
  }

  lemma TermStarts(term: Term, now: int)
    ensures var r := StartTerm(term, now);
      && (r.Ok? <==> MayBegin(term.kind, now, term.duration, term.expires))
      && (r.Ok? ==> Begun(r.value, now, term.duration, term.expires))
      && (r.Ok? ==> r.value == term.(started := r.value.started, expires := r.value.expires))
  {
  }

  /** Putting a started first term and its owner in place, then moving the pool. */
  lemma FirstInPlace(s: State, call: LifecycleCall, client: Client, term: Term, newTerm: Id)
    requires call.Transition? && ValidCall(call) && ValidId(newTerm) && !s.fenced
    requires call.client in s.clients && client == s.clients[call.client] && client.panel && client.pending == None
    requires term.client == call.client && term.state == Active && term.rates == call.spec.rates
    ensures var owner :=
      Client(client.panel, client.owned, client.revision + 1, client.generation, Some(newTerm), None);
      var r := ActivateRatePool(s.(clients := s.clients[call.client := owner], terms := s.terms[newTerm := term]),
        call.client, newTerm, term);
      && (r.Ok? <==> PoolReady(s, call.client))
      && (r.Ok? ==> OnlyTerms(s, r.value) && PoolMoved(s, r.value, call.client, newTerm, call.spec.rates))
      && (r.Ok? ==> r.value.clients == s.clients[call.client := owner] && r.value.terms == s.terms[newTerm := term])
  {
    var owner := Client(client.panel, client.owned, client.revision + 1, client.generation, Some(newTerm), None);
    PoolActivates(s.(clients := s.clients[call.client := owner], terms := s.terms[newTerm := term]), call.client,
      newTerm, term);
  }

  lemma FirstActivates(s: State, call: LifecycleCall, client: Client, last: int, newTerm: Id, now: int)
    requires call.Transition? && call.kind == Activation && ValidCall(call) && ValidId(newTerm) && !s.fenced
    requires call.client in s.clients && client == s.clients[call.client] && client.panel && client.pending == None
    requires LastNumber(s.terms, call.client, last)
    ensures var r := StartFirst(s, call, client, last + 1, newTerm, now);
      && (r.Ok? <==>
        client.current == None && PoolReady(s, call.client)
        && MayBegin(Activation, now, call.spec.duration, call.spec.expires))
      && (r.Ok? ==> Activated(s, r.value.0, call, newTerm, now, r.value.1))
  {
    var made := NewTerm(call, client, last + 1);
    TermStarts(made, now);
    if client.current == None && StartTerm(made, now).Ok? {
      FirstInPlace(s, call, client, StartTerm(made, now).value, newTerm);
    }
  }

  lemma SuccessorQueues(s: State, call: LifecycleCall, client: Client, last: int, newTerm: Id, now: int)
    requires call.Transition? && call.kind != Activation
    requires call.client in s.clients && client == s.clients[call.client] && client.pending == None
    requires LastNumber(s.terms, call.client, last)
    ensures var r := StartSuccessor(s, call, client, last + 1, newTerm, now);
      && (r.Ok? <==> client.current.Some? && MayFollow(s, call, client.current.value, now))
      && (r.Ok? ==> Queued(s, r.value.0, call, newTerm, r.value.1))
  {
  }

  lemma NumbersLeft(s: State, client: Id)
    ensures LastNumber(s.terms, client, NumberOf(s.terms, client))
    ensures LastNumber(s.terms, client, MAX_INT64) <==> NumberOf(s.terms, client) == MAX_INT64
  {
    NumberIsLast(s.terms, client);
    if LastNumber(s.terms, client, MAX_INT64) {
      LastIsUnique(s.terms, client, NumberOf(s.terms, client), MAX_INT64);
    }
  }

  lemma TransitionIsLocked(s: State, call: LifecycleCall)
    requires call.Transition?
    ensures LockTransition(s, call).Ok? <==>
      ClientReady(s, call.client, call.expectedRevision, call.expectedGeneration)
      && s.clients[call.client].pending == None
      && (match s.clients[call.client].current case None => 0 case Some(id) => id) == call.expectedTerm
    ensures LockTransition(s, call).Ok? ==> LockTransition(s, call).value == s.clients[call.client]
  {
  }

  lemma TransitionUnfolds(s: State, call: LifecycleCall, newTerm: Id, now: int)
    requires call.Transition? && LockTransition(s, call).Ok? && NumberOf(s.terms, call.client) != MAX_INT64
    ensures var client, number := LockTransition(s, call).value, NumberOf(s.terms, call.client) + 1;
      ApplyTransition(s, call, newTerm, now) ==
        if call.kind == Activation then StartFirst(s, call, client, number, newTerm, now)
        else StartSuccessor(s, call, client, number, newTerm, now)
  {
  }

  /** A client that cannot be locked, or has no number left, gets no further term. */
  lemma UnlockedIsRefused(s: State, call: LifecycleCall, newTerm: Id, now: int)
    requires call.Transition?
    requires LockTransition(s, call).Err? || NumberOf(s.terms, call.client) == MAX_INT64
    ensures ApplyTransition(s, call, newTerm, now).Err?
    ensures call.kind == Activation ==> !MayActivate(s, call, now)
    ensures call.kind != Activation ==> !MayQueue(s, call, now)
  {
    TransitionIsLocked(s, call);
    NumbersLeft(s, call.client);
  }

  lemma ActivationDoes(s: State, call: LifecycleCall, newTerm: Id, now: int)
    requires call.Transition? && call.kind == Activation && ValidCall(call) && ValidId(newTerm) && !s.fenced
    ensures var r := ApplyTransition(s, call, newTerm, now);
      (r.Ok? <==> MayActivate(s, call, now)) && (r.Ok? ==> Activated(s, r.value.0, call, newTerm, now, r.value.1))
  {
    if LockTransition(s, call).Err? || NumberOf(s.terms, call.client) == MAX_INT64 {
      UnlockedIsRefused(s, call, newTerm, now);
    } else {
      TransitionIsLocked(s, call);
      NumbersLeft(s, call.client);
      TransitionUnfolds(s, call, newTerm, now);
      FirstActivates(s, call, s.clients[call.client], NumberOf(s.terms, call.client), newTerm, now);
    }
  }

  lemma SuccessionDoes(s: State, call: LifecycleCall, newTerm: Id, now: int)
    requires call.Transition? && call.kind != Activation
    ensures var r := ApplyTransition(s, call, newTerm, now);
      (r.Ok? <==> MayQueue(s, call, now)) && (r.Ok? ==> Queued(s, r.value.0, call, newTerm, r.value.1))
  {
    TransitionIsLocked(s, call);
    NumbersLeft(s, call.client);
    var last := NumberOf(s.terms, call.client);
    if LockTransition(s, call).Ok? && last != MAX_INT64 {
      SuccessorQueues(s, call, s.clients[call.client], last, newTerm, now);
      TransitionUnfolds(s, call, newTerm, now);
    }
  }

  /** Putting the started successor and its owner in place, then moving the pool. */
  lemma HandedOver(s: State, call: LifecycleCall, client: Client, started: Term, previousId: Id, previous: Term)
    requires call.Complete? && ValidCall(call) && !s.fenced
    requires call.client in s.clients && client == s.clients[call.client] && client.panel
    requires started.client == call.client && previousId != call.pendingTerm
    ensures var r := HandOver(s, call, client, started, previousId, previous);
      && (r.Ok? <==> PoolReady(s, call.client) && ValidPair(started.rates))
      && (r.Ok? ==>
        && OnlyTerms(s, r.value.0) && PoolMoved(s, r.value.0, call.client, call.pendingTerm, started.rates)
        && r.value.1.term == started.(state := Active, generation := client.generation)
        && r.value.1.client ==
          Client(client.panel, client.owned, client.revision + 1, client.generation, Some(call.pendingTerm), None)
        && r.value.0.clients == s.clients[call.client := r.value.1.client]
        && r.value.0.terms == s.terms[call.pendingTerm := r.value.1.term][previousId := previous.(state := Closed)]
        && r.value.1.termId == call.pendingTerm && !r.value.1.pendingDrain)
  {
    var active := started.(state := Active, generation := client.generation);
    var owner := client.(current := Some(call.pendingTerm), pending := None, revision := client.revision + 1);
    PoolActivates(s.(clients := s.clients[call.client := owner],
      terms := s.terms[call.pendingTerm := active][previousId := previous.(state := Closed)]), call.client,
      call.pendingTerm, active);
  }

  lemma PendingIsLocked(s: State, call: LifecycleCall)
    requires call.Complete? || call.Cancel?
    ensures LockPending(s, call).Ok? <==>
      ClientReady(s, call.client, call.expectedRevision, call.expectedGeneration)
      && Waiting(s, call.client, call.pendingTerm)
    ensures LockPending(s, call).Ok? ==>
      var previousId := s.clients[call.client].current.value;
      LockPending(s, call).value ==
        (s.clients[call.client], s.terms[call.pendingTerm], previousId, s.terms[previousId])
  {
  }

  lemma DrainedIsStopped(s: State, client: Id, term: Id)
    ensures Stopped(s, client, term) <==> Drained(s, client, term)
  {
  }

  lemma CompletionDoes(s: State, call: LifecycleCall, now: int)
    requires call.Complete? && ValidCall(call) && !s.fenced
    ensures var r := ApplyComplete(s, call, now);
      (r.Ok? <==> MayComplete(s, call, now)) && (r.Ok? ==> Completed(s, r.value.0, call, now, r.value.1))
  {
    PendingIsLocked(s, call);
    if LockPending(s, call).Ok? {
      var client, term := s.clients[call.client], s.terms[call.pendingTerm];
      var previousId := client.current.value;
      TermStarts(term, now);
      DrainedIsStopped(s, call.client, previousId);
      if StartTerm(term, now).Ok? {
        HandedOver(s, call, client, StartTerm(term, now).value, previousId, s.terms[previousId]);
      }
    }
  }

  lemma CancellationDoes(s: State, call: LifecycleCall)
    requires call.Cancel?
    ensures var r := ApplyCancel(s, call);
      (r.Ok? <==> MayCancel(s, call)) && (r.Ok? ==> Cancelled(s, r.value.0, call, r.value.1))
  {
    PendingIsLocked(s, call);
  }

  lemma CallDoes(s: State, call: LifecycleCall, newTerm: Id, now: int)
    requires ValidCall(call) && ValidId(newTerm) && !s.fenced
    ensures var r := Apply(s, call, newTerm, now); CallDecided(s, Left(r, s), call, newTerm, now, Given(r))
  {
    match call
    case Transition(_, _, _, _, _, kind, _) =>
      if kind == Activation {
        ActivationDoes(s, call, newTerm, now);
      } else {
        SuccessionDoes(s, call, newTerm, now);
      }
    case Complete(_, _, _, _, _) => CompletionDoes(s, call, now);
    case Cancel(_, _, _, _) => CancellationDoes(s, call);
  }

  /** What a call has to be like on its own, whatever the tables hold. */
  predicate WellPosed(call: LifecycleCall)
  {
    && call.client != 0 && 1 <= call.expectedRevision <= MAX_INT64 && 1 <= call.expectedGeneration <= MAX_INT64
    && (!call.Transition? ==> call.pendingTerm != 0) && (!call.Cancel? ==> call.policy != 0)
    && (call.Transition? ==> WellPriced(call.spec) && match call.kind
      case Activation => true
      case Renewal => call.spec.duration > 0 && call.spec.openingUsed == 0
      case TrafficReset => call.spec.duration == 0 && call.spec.expires == 0 && call.spec.openingUsed == 0
      case UnknownKind => false)
  }

  /** Opening counters that add up within the quota, at most one way to end, valid rates. */
  predicate WellPriced(spec: TermSpec)
  {
    && 0 <= spec.openingUploaded && 0 <= spec.openingDownloaded
    && spec.openingUsed == spec.openingUploaded + spec.openingDownloaded <= MAX_INT64
    && (if spec.unlimited then spec.quota == 0 else spec.openingUsed <= spec.quota)
    && 0 <= spec.duration && 0 <= spec.expires && !(spec.duration > 0 && spec.expires > 0)
    && Valid(spec.rates.upload) && Valid(spec.rates.download)
  }

  /** A lifecycle call under its operation id: a repeated one gives the recorded result
      back, a new one is taken exactly when it may be, a refused one changes nothing. */
  ghost predicate LifecycleDone(s: State, t: State, operation: Id, call: LifecycleCall, newTerm: Id, now: int,
      r: Result<TransitionResult>)
  {
    && (r.Err? ==> t == s)
    && if operation in s.operations then
         && (r.Ok? <==>
           WellPosed(call) && operation != 0 && !s.fenced
           && s.operations[operation].LifecycleOperation? && s.operations[operation].call == call)
         && (r.Ok? ==> t == s && s.operations[operation] == LifecycleOperation(call, r.value))
       else
         && (r.Ok? <==> WellPosed(call) && operation != 0 && !s.fenced && MayCall(s, call, now))
         && (r.Ok? ==>
           && t.operations == s.operations[operation := LifecycleOperation(call, r.value)]
           && CallDone(s, t.(operations := s.operations), call, newTerm, now, r.value))
  }

  lemma WellPosedIsValid(call: LifecycleCall)
    ensures ValidCall(call) <==> WellPosed(call)
  {
  }

  lemma CallKeepsOperations(s: State, t: State, call: LifecycleCall, newTerm: Id, now: int, r: TransitionResult)
    requires CallDone(s, t, call, newTerm, now, r)
    ensures t.operations == s.operations && t.fenced == s.fenced
  {
  }

  lemma LifecycleDoes(s: State, operation: Id, call: LifecycleCall, newTerm: Id, now: int)
    requires ValidId(newTerm)
    ensures var r := Lifecycle(s, operation, call, newTerm, now);
      LifecycleDone(s, Left(r, s), operation, call, newTerm, now, Given(r))
  {
    WellPosedIsValid(call);
    if ValidCall(call) && ValidId(operation) && !s.fenced && operation !in s.operations {
      CallDoes(s, call, newTerm, now);
      var r := Apply(s, call, newTerm, now);
      if r.Ok? {
        var (mid, given) := r.value;
        CallKeepsOperations(s, mid, call, newTerm, now, given);
        var t := mid.(operations := mid.operations[operation := LifecycleOperation(call, given)]);
        assert t.(operations := s.operations) == mid;
        assert Lifecycle(s, operation, call, newTerm, now) == Ok((t, given));
      }
    }
  }

  // ----- budgets, confirmations and stops -----

  /** A budget is written as given when its term runs, and never goes back or changes hands. */
  ghost predicate BudgetDone(s: State, t: State, id: Id, client: Id, term: Id, revision: int, desired: Pair,
      r: Result<()>)
  {
    var row := RateBudget(client, term, revision, desired);
    && (r.Ok? <==>
      && id != 0 && client != 0 && term != 0 && 1 <= revision <= MAX_INT64
      && Valid(desired.upload) && Valid(desired.download) && !s.fenced && RunsTerm(s, client, term)
      && (id in s.budgets ==>
        s.budgets[id] == row || (s.budgets[id].client == client && s.budgets[id].revision < revision)))
    && t == if r.Ok? then s.(budgets := s.budgets[id := row]) else s
  }

  /** A confirmation takes the latest revision with its own rates from the share's node,
      and leaves exactly those rates outstanding. */
  ghost predicate ConfirmDone(s: State, t: State, node: Id, installation: Id, grant: Id, revision: int, applied: Pair,
      r: Result<()>)
  {
    && (r.Ok? <==>
      && grant != 0 && 1 <= revision <= MAX_INT64 && Valid(applied.upload) && Valid(applied.download) && !s.fenced
      && NodeServes(s, node, installation) && grant in s.shares && s.shares[grant].node == node
      && s.shares[grant].installation == installation && s.shares[grant].budget in s.budgets
      && s.shares[grant].revision == revision && s.shares[grant].desired == applied)
    && (r.Err? ==> t == s)
    && (r.Ok? ==>
      t == s.(shares := s.shares[grant := s.shares[grant].(applied := revision, outstanding := applied)]))
  }

  /** A stop asks for nothing under a new revision; what may be enforced stays outstanding. */
  ghost predicate ZeroStopDone(s: State, t: State, grant: Id, expected: Share, r: Result<()>)
  {
    && (r.Ok? <==>
      && grant in s.grants && s.grants[grant].client in s.clients && s.clients[s.grants[grant].client].owned
      && expected.budget in s.budgets && s.budgets[expected.budget].client == s.grants[grant].client
      && grant in s.shares && s.shares[grant] == expected && expected.revision != MAX_INT64)
    && (r.Err? ==> t == s)
    && (r.Ok? ==>
      t == s.(shares := s.shares[grant := Share(expected.budget, expected.node, expected.installation,
        expected.runtime, expected.revision + 1, expected.applied,
        Pair(Rate(Blocked, 0, 0), Rate(Blocked, 0, 0)), expected.outstanding)]))
  }

  /** The shares with those of `ids` settled on what they desire. */
  predicate SettledOnly(was: map<Id, Share>, now: map<Id, Share>, ids: set<Id>)
  {
    && now.Keys == was.Keys
    && forall id :: id in was ==>
      now[id] == if id in ids then was[id].(applied := was[id].revision, outstanding := was[id].desired) else was[id]
  }

  /** A share is on the node and runtime that report it. */
  predicate Reported(s: State, id: Id, node: Id, installation: Id, runtime: string)
  {
    && id in s.shares && s.shares[id].node == node && s.shares[id].installation == installation
    && s.shares[id].runtime == runtime
  }

  /** An applied deployment settles the shares whose latest revision it carried, and is
      taken exactly when every share it names is its own and, at that revision, desires its rates. */
  ghost predicate ConfigurationDone(s: State, t: State, node: Id, installation: Id, claims: map<Id, RateClaim>,
      r: Result<()>)
  {
    var carried := set id | id in claims && id in s.shares && claims[id].revision != 0
      && s.shares[id].revision == claims[id].revision;
    && (r.Ok? <==>
      && (forall id :: id in claims && claims[id].revision != 0 ==>
        Reported(s, id, node, installation, claims[id].runtime))
      && (forall id :: id in carried ==> s.shares[id].desired == claims[id].rates && s.shares[id].budget in s.budgets))
    && (r.Err? ==> t == s)
    && (r.Ok? ==> t == s.(shares := t.shares) && SettledOnly(s.shares, t.shares, carried))
  }

  /** An acknowledged entry names a share of its node at its latest revision and rates,
      in the pool of its client; a disabled one carries no rate. */
  predicate Acknowledges(s: State, id: Id, node: Id, installation: Id, entry: AuthorityEntry)
  {
    && Reported(s, id, node, installation, entry.runtime) && entry.client in s.budgets
    && s.shares[id].budget == entry.client && s.shares[id].revision == entry.revision
    && s.shares[id].desired == entry.rates
    && (entry.enabled || entry.rates == Pair(Rate(Blocked, 0, 0), Rate(Blocked, 0, 0)))
  }

  /** The stops with those of the batch written for its disabled entries and cleared for the others. */
  ghost predicate StopsFollow(was: map<Id, Stop>, now: map<Id, Stop>, base: int, entries: map<Id, AuthorityEntry>)
  {
    && (forall id :: id in now <==> if id in entries then !entries[id].enabled else id in was)
    && (forall id :: id in now ==> now[id] == if id in entries then Stop(base, entries[id].revision) else was[id])
  }

  /** An acknowledged batch settles its shares; its disabled entries are stops, its enabled ones none. */
  ghost predicate AuthorityDone(s: State, t: State, node: Id, installation: Id, base: int,
      entries: map<Id, AuthorityEntry>, r: Result<()>)
  {
    && (r.Ok? <==> forall id :: id in entries ==> Acknowledges(s, id, node, installation, entries[id]))
    && (r.Err? ==> t == s)
    && (r.Ok? ==>
      && t == s.(shares := t.shares, stops := t.stops)
      && SettledOnly(s.shares, t.shares, entries.Keys) && StopsFollow(s.stops, t.stops, base, entries))
  }

  /** Stops are recorded of exactly the claimed grants whose node applied the claimed
      revision with nothing outstanding. */
  ghost predicate StopsDone(s: State, t: State, node: Id, deployment: int, claims: map<Id, StopClaim>)
  {
    var proven := set id | id in claims && id in s.shares && s.shares[id].node == node
      && s.shares[id].runtime == claims[id].runtime && s.shares[id].revision == s.shares[id].applied == claims[id].rate
      && s.shares[id].outstanding == Pair(Rate(Blocked, 0, 0), Rate(Blocked, 0, 0));
    && t == s.(stops := t.stops) && t.stops.Keys == s.stops.Keys + proven
    && forall id :: id in t.stops ==>
      t.stops[id] == if id in proven then Stop(deployment, claims[id].rate) else s.stops[id]
  }

  ghost function Whole(r: Result<State>): Result<()>
  {
    match r case Ok(_) => Ok(()) case Err(e) => Err(e)
  }

  ghost function Kept(r: Result<State>, s: State): State
  {
    if r.Ok? then r.value else s
  }

  lemma BudgetDoes(s: State, id: Id, client: Id, term: Id, revision: int, desired: Pair)
    ensures var r := SetRateBudget(s, id, client, term, revision, desired);
      BudgetDone(s, Kept(r, s), id, client, term, revision, desired, Whole(r))
  {
  }

  lemma ConfirmDoes(s: State, node: Id, installation: Id, grant: Id, revision: int, applied: Pair)
    ensures var r := ConfirmRateShare(s, node, installation, grant, revision, applied);
      ConfirmDone(s, Kept(r, s), node, installation, grant, revision, applied, Whole(r))
  {
  }

  lemma ZeroStopDoes(s: State, grant: Id, expected: Share)
    ensures var r := ZeroStopRateShare(s, grant, expected); ZeroStopDone(s, Kept(r, s), grant, expected, Whole(r))
  {
  }

  lemma CarriedAreSettled(shares: map<Id, Share>, claims: map<Id, RateClaim>)
    ensures SettledOnly(shares, shares + SettledRows(shares, claims), set id |
      id in claims && id in shares && claims[id].revision != 0 && shares[id].revision == claims[id].revision)
  {
  }

  lemma ConfigurationDoes(s: State, node: Id, installation: Id, claims: map<Id, RateClaim>)
    ensures var r := AcknowledgeConfiguration(s, node, installation, claims);
      ConfigurationDone(s, Kept(r, s), node, installation, claims, Whole(r))
  {
    CarriedAreSettled(s.shares, claims);
  }

  lemma EntriesAreSettled(shares: map<Id, Share>, entries: map<Id, AuthorityEntry>)
    ensures SettledOnly(shares, shares + EntryRows(shares, entries), entries.Keys)
  {
  }

  lemma StopsAreFollowed(stops: map<Id, Stop>, base: int, entries: map<Id, AuthorityEntry>)
    ensures StopsFollow(stops, EntryStops(stops, base, entries), base, entries)
  {
  }

  lemma EntriesAreAcknowledged(s: State, node: Id, installation: Id, entries: map<Id, AuthorityEntry>)
    ensures EntriesMatch(s, node, installation, entries) <==>
      forall id :: id in entries ==> Acknowledges(s, id, node, installation, entries[id])
  {
  }

  lemma AuthorityDoes(s: State, node: Id, installation: Id, base: int, entries: map<Id, AuthorityEntry>)
    ensures var r := AcknowledgeAuthority(s, node, installation, base, entries);
      AuthorityDone(s, Kept(r, s), node, installation, base, entries, Whole(r))
  {
    EntriesAreAcknowledged(s, node, installation, entries);
    EntriesAreSettled(s.shares, entries);
    StopsAreFollowed(s.stops, base, entries);
  }

  lemma StopsDoes(s: State, node: Id, deployment: int, claims: map<Id, StopClaim>)
    ensures StopsDone(s, RecordStoppedGrants(s, node, deployment, claims), node, deployment, claims)
  {
  }
}
