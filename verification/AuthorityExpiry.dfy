/** When terms end. A renewal runs for its own duration from the moment it takes
    over; a traffic reset starts the counters again and keeps the end its
    predecessor had. Both hold over every honest run. */
module AuthorityExpiry {
  import opened Results
  import opened Authority
  import opened AuthorityEffects
  import opened AuthorityRuns
  import opened AuthoritySafety

  /** A term that followed another is a renewal with a duration, or a reset without
      one that ends when its predecessor does. A predecessor no longer waits. */
  predicate Inherits(terms: map<Id, Term>, id: Id)
    requires id in terms
  {
    match terms[id].predecessor
    case None => terms[id].kind == Activation
    case Some(previous) =>
      && previous in terms && terms[previous].state != Pending
      && (terms[id].kind == Renewal || terms[id].kind == TrafficReset)
      && (terms[id].kind == Renewal ==> terms[id].duration > 0)
      && (terms[id].kind == TrafficReset ==> terms[id].duration == 0 && terms[id].expires == terms[previous].expires)
  }

  predicate EndsInherited(terms: map<Id, Term>)
  {
    forall id :: id in terms ==> Inherits(terms, id)
  }

  /** Rows may change state, start and generation, and rows that nothing follows their end. */
  lemma SameEndsStay(s: map<Id, Term>, t: map<Id, Term>, started: Id)
    requires EndsInherited(s) && t.Keys == s.Keys
    requires forall id :: id in s ==>
      && t[id].kind == s[id].kind && t[id].predecessor == s[id].predecessor && t[id].duration == s[id].duration
      && (t[id].state == Pending ==> s[id].state == Pending)
    requires forall id :: id in s && id != started ==> t[id].expires == s[id].expires
    requires started in s && s[started].state == Pending
    requires s[started].duration <= 0 ==> t[started].expires == s[started].expires
    ensures EndsInherited(t)
  {
    forall id | id in t ensures Inherits(t, id) {
      assert Inherits(s, id);
    }
  }

  lemma ActivatedEnds(s: State, t: State, call: LifecycleCall, newTerm: Id, now: int, r: TransitionResult)
    requires call.Transition? && call.kind == Activation && Activated(s, t, call, newTerm, now, r)
    requires EndsInherited(s.terms) && newTerm !in s.terms
    ensures EndsInherited(t.terms)
  {
    forall id | id in t.terms ensures Inherits(t.terms, id) {
      if id != newTerm {
        assert Inherits(s.terms, id);
      }
    }
  }

  lemma QueuedEnds(s: State, t: State, call: LifecycleCall, newTerm: Id, r: TransitionResult)
    requires call.Transition? && call.kind != Activation && WellPosed(call) && Queued(s, t, call, newTerm, r)
    requires EndsInherited(s.terms) && newTerm !in s.terms
    ensures EndsInherited(t.terms)
  {
    forall id | id in t.terms ensures Inherits(t.terms, id) {
      if id != newTerm {
        assert Inherits(s.terms, id);
      }
    }
  }

  lemma CallKeepsEnds(s: State, t: State, call: LifecycleCall, newTerm: Id, now: int, r: TransitionResult)
    requires WellPosed(call) && CallDone(s, t, call, newTerm, now, r)
    requires EndsInherited(s.terms) && newTerm !in s.terms
    ensures EndsInherited(t.terms)
  {
    match call
    case Transition(_, _, _, _, _, kind, _) =>
      if kind == Activation {
        ActivatedEnds(s, t, call, newTerm, now, r);
      } else {
        QueuedEnds(s, t, call, newTerm, r);
      }
    case Complete(_, pending, _, _, _) => SameEndsStay(s.terms, t.terms, pending);
    case Cancel(_, pending, _, _) => SameEndsStay(s.terms, t.terms, pending);
  }

  lemma ClientEventKeepsEnds(s: State, e: ClientEvent)
    requires EndsInherited(s.terms) && FreshIds(s, e)
    ensures EndsInherited(AfterClient(s, e).terms)
  {
    if e.Call? && Lifecycle(s, e.operation, e.call, e.newTerm, e.now).Ok? && e.operation !in s.operations {
      var (t, r) := Lifecycle(s, e.operation, e.call, e.newTerm, e.now).value;
      LifecycleDoes(s, e.operation, e.call, e.newTerm, e.now);
      CallKeepsEnds(s, t.(operations := s.operations), e.call, e.newTerm, e.now, r);
    }
  }

  lemma EventKeepsEnds(w: World, e: Event)
    requires EndsInherited(w.store.terms) && Honest(w, e)
    ensures EndsInherited(Next(w, e).store.terms)
  {
    match e
    case OfRates(rate) => RateEventKeepsTerms(w.store, rate);
    case OfReport(report) => ReportEventKeepsTerms(w.store, report);
    case OfClient(client) => ClientEventKeepsEnds(w.store, client);
    case NodeApply(_, _) =>
  }

  /** In every honest run a term that followed another ends as described above. */
  lemma {:induction false} RunKeepsEnds(w: World, events: seq<Event>)
    requires EndsInherited(w.store.terms) && HonestRun(w, events)
    ensures EndsInherited(After(w, events).store.terms)
    decreases |events|
  {
    if events != [] {
      EventKeepsEnds(w, events[0]);
      RunKeepsEnds(Next(w, events[0]), events[1..]);
    }
  }

  /** A term that took over: active since `now`, and ending as its kind says. */
  predicate TookOver(row: Term, replaced: Term, now: int)
  {
    && row.state == Active && row.started == now
    && match row.kind
       case Renewal => row.expires == now + row.duration && now < row.expires
       case TrafficReset => row.expires == replaced.expires
       case _ => false
  }

  /** Whenever a waiting term takes over in an honest run, it starts then. A renewal ends
      its duration later; a traffic reset ends when the term it replaced would have. */
  lemma TakeoverEnds(w: World, events: seq<Event>, operation: Id, call: LifecycleCall, newTerm: Id, now: int)
    requires EndsInherited(w.store.terms) && HonestRun(w, events) && call.Complete? && ValidId(newTerm)
    requires operation !in After(w, events).store.operations
    requires Lifecycle(After(w, events).store, operation, call, newTerm, now).Ok?
    ensures var s := After(w, events).store;
      var t := Lifecycle(s, operation, call, newTerm, now).value.0;
      && call.client in s.clients && s.clients[call.client].current.Some?
      && s.clients[call.client].current.value in s.terms && call.pendingTerm in t.terms
      && TookOver(t.terms[call.pendingTerm], s.terms[s.clients[call.client].current.value], now)
  {
    RunKeepsEnds(w, events);
    var s := After(w, events).store;
    LifecycleDoes(s, operation, call, newTerm, now);
    assert Inherits(s.terms, call.pendingTerm);
  }
}
