/** The leased admission queue: demands of placements, rate work of grants, and
    one queue row a node that a worker claims for a minute. */
module Admissions {
  import opened Results

  datatype Demand = Demand(node: Id, request: Id, digest: nat, revision: int, deadline: int, available: int,
    attempts: int, pending: bool)

  datatype Work = Work(node: Id, request: Id, revision: int, deadline: int, available: int, pending: bool)

  datatype Queue = Queue(pending: bool, available: int, claim: Option<Id>, lease: int)

  /** Demands by placement, rate work by grant, queue rows by node. */
  datatype State = State(demands: map<Id, Demand>, work: map<Id, Work>, queues: map<Id, Queue>)

  const EMPTY := State(map[], map[], map[])

  const LEASE := 60_000
  const HORIZON := 15_000

  function Min(a: int, b: int): int
  {
    if a <= b then a else b
  }

  function Max(a: int, b: int): int
  {
    if a <= b then b else a
  }

  /** A queue row made pending, no later than it was if it was pending already. */
  function Woken(queues: map<Id, Queue>, node: Id, available: int): map<Id, Queue>
  {
    if node in queues then
      var q := queues[node];
      queues[node := q.(pending := true, available := if q.pending then Min(q.available, available) else available)]
    else queues[node := Queue(true, available, None, 0)]
  }

  /** A placement's new demand replaces its last one; the same request again is the same demand. */
  function Enqueue(s: State, placement: Id, node: Id, request: Id, digest: nat, deadline: int, now: int): Result<State>
  {
    if !(now < deadline <= now + HORIZON && ValidId(request)) then Err(Scope) else
    if placement in s.demands && s.demands[placement].request == request then
      if s.demands[placement].digest == digest then Ok(s) else Err(Conflict)
    else
      var revision := if placement in s.demands then s.demands[placement].revision else 0;
      :- Need(revision != MAX_INT64, Revision);
      Ok(s.(demands := s.demands[placement := Demand(node, request, digest, revision + 1, deadline, now, 0, true)],
        queues := Woken(s.queues, node, now)))
  }

  predicate Due(q: Queue, now: int)
  {
    q.pending && q.available <= now && q.lease <= now
  }

  /** A worker leases some of the due nodes. */
  function Claim(s: State, chosen: set<Id>, claim: Id, now: int): State
    requires forall n :: n in chosen ==> n in s.queues && Due(s.queues[n], now)
  {
    s.(queues := map n | n in s.queues :: if n in chosen then s.queues[n].(claim := Some(claim), lease := now + LEASE)
      else s.queues[n])
  }

  /** The lease on a node is this claim's, and is not over. */
  predicate Holds(s: State, node: Id, claim: Id, now: int)
  {
    node in s.queues && s.queues[node].claim == Some(claim) && s.queues[node].lease > now
  }

  function Expired(d: Demand, node: Id, now: int): Demand
  {
    if d.node == node && d.pending && d.deadline <= now then d.(pending := false) else d
  }

  /** The holder of a node's lease drops the demands whose deadline has passed. */
  function ExpireDemands(s: State, node: Id, claim: Id, now: int): State
  {
    if Holds(s, node, claim, now) then s.(demands := map p | p in s.demands :: Expired(s.demands[p], node, now)) else s
  }

  function Backoff(attempts: int): int
  {
    if attempts <= 1 then 2 else if attempts == 2 then 4 else if attempts == 3 then 8
      else if attempts == 4 then 16 else 30
  }

  function Settled(row: Demand, d: Demand, retry: bool, now: int): Demand
  {
    if retry && d.deadline > now then
      var attempts := Min(d.attempts + 1, 5);
      row.(attempts := attempts, available := Min(d.deadline, now + Backoff(attempts) * 1000))
    else row.(pending := false)
  }

  /** The row a settlement is about: the same request of the same revision, still pending. */
  predicate Matches(s: State, node: Id, placement: Id, d: Demand)
  {
    placement in s.demands && var row := s.demands[placement];
      row.node == node && row.request == d.request && row.revision == d.revision && row.pending
  }

  function Settle(s: State, node: Id, claim: Id, placement: Id, d: Demand, retry: bool, now: int): State
  {
    if d.node == node && Matches(s, node, placement, d) && Holds(s, node, claim, now) then
      s.(demands := s.demands[placement := Settled(s.demands[placement], d, retry, now)])
    else s
  }

  /** A settlement of rate work. */
  function SettleWork(s: State, node: Id, claim: Id, grant: Id, w: Work, retry: bool, now: int): State
  {
    if w.node == node && grant in s.work && s.work[grant].node == node && s.work[grant].request == w.request
      && s.work[grant].revision == w.revision && s.work[grant].pending
      && Holds(s, node, claim, now) then
      s.(work := s.work[grant := s.work[grant].(pending := retry && w.deadline > now, available := now + 500)])
    else s
  }

  predicate DemandLeft(s: State, p: Id, node: Id, now: int)
  {
    p in s.demands && s.demands[p].node == node && s.demands[p].pending && s.demands[p].deadline > now
  }

  predicate WorkLeft(s: State, g: Id, node: Id, now: int)
  {
    g in s.work && s.work[g].node == node && s.work[g].pending && s.work[g].deadline > now
  }

  predicate AnyLeft(s: State, node: Id, now: int)
  {
    (exists p :: p in s.demands && DemandLeft(s, p, node, now)) || exists g :: g in s.work && WorkLeft(s, g, node, now)
  }

  /** The earliest time some of a node's remaining work is available. */
  ghost predicate Earliest(s: State, node: Id, now: int, time: int)
  {
    && (forall p :: DemandLeft(s, p, node, now) ==> time <= s.demands[p].available)
    && (forall g :: WorkLeft(s, g, node, now) ==> time <= s.work[g].available)
    && ((exists p :: DemandLeft(s, p, node, now) && time == s.demands[p].available)
      || exists g :: WorkLeft(s, g, node, now) && time == s.work[g].available)
  }

  /** A released node stays pending exactly while work is left, for its earliest time. */
  ghost predicate Releases(s: State, t: State, node: Id, claim: Id, now: int)
  {
    if node !in s.queues || s.queues[node].claim != Some(claim) then t == s
    else
      && node in t.queues && t == s.(queues := s.queues[node := t.queues[node]])
      && t.queues[node].claim.None? && t.queues[node].lease == 0 && (t.queues[node].pending <==> AnyLeft(s, node, now))
      && if AnyLeft(s, node, now)
         then exists time :: Earliest(s, node, now, time) && t.queues[node].available == Max(now + 250, time)
         else t.queues[node].available == s.queues[node].available
  }

  // ----- runs -----

  datatype World = World(store: State, clock: int)

  datatype Event =
    | EnqueueEvent(placement: Id, node: Id, request: Id, digest: nat, deadline: int)
    | ClaimEvent(chosen: set<Id>, claim: Id)
    | ExpireEvent(expiring: Id, expirer: Id)
    | SettleEvent(settling: Id, settler: Id, settled: Id, demand: Demand, retry: bool)
    | WorkEvent(worked: Id, worker: Id, grant: Id, work: Work, again: bool)
    | PlanEvent(planned: Id, plan: Work)
    | WakeEvent(woken: Id, time: int)
    | ReleaseEvent(releasing: Id, releaser: Id)
    | Wait

  /** One step at a time that is not before the last one's. */
  ghost predicate Step(w: World, e: Event, v: World)
  {
    && w.clock <= v.clock
    && var s, now := w.store, v.clock;
       match e
       case EnqueueEvent(placement, node, request, digest, deadline) =>
         var r := Enqueue(s, placement, node, request, digest, deadline, now); v.store == if r.Ok? then r.value else s
       case ClaimEvent(chosen, claim) => (forall n :: n in chosen ==> n in s.queues && Due(s.queues[n], now))
         && v.store == Claim(s, chosen, claim, now)
       case ExpireEvent(node, claim) => v.store == ExpireDemands(s, node, claim, now)
       case SettleEvent(node, claim, placement, demand, retry) =>
         v.store == Settle(s, node, claim, placement, demand, retry, now)
       case WorkEvent(node, claim, grant, work, again) => v.store == SettleWork(s, node, claim, grant, work, again, now)
       case PlanEvent(grant, plan) => v.store == s.(work := s.work[grant := plan])
       case WakeEvent(node, time) => v.store == s.(queues := Woken(s.queues, node, time))
       case ReleaseEvent(node, claim) => Releases(s, v.store, node, claim, now)
       case Wait => v.store == s
  }

  /** A pending demand before its deadline. */
  predicate Open(s: State, p: Id, now: int)
  {
    p in s.demands && s.demands[p].pending && s.demands[p].deadline > now
  }

  /** Every open demand's node is queued. */
  ghost predicate Queued(w: World)
  {
    forall p :: Open(w.store, p, w.clock) ==>
      w.store.demands[p].node in w.store.queues && w.store.queues[w.store.demands[p].node].pending
  }

  lemma EnqueueStaysQueued(w: World, placement: Id, node: Id, request: Id, digest: nat, deadline: int, v: World)
    requires Queued(w) && Step(w, EnqueueEvent(placement, node, request, digest, deadline), v)
    ensures Queued(v)
  {
    forall p | Open(v.store, p, v.clock)
      ensures v.store.demands[p].node in v.store.queues && v.store.queues[v.store.demands[p].node].pending {
      if p != placement {
        assert Open(w.store, p, w.clock);
      } else if v.store == w.store {
        assert Open(w.store, p, w.clock);
      }
    }
  }

  lemma ReleaseStaysQueued(w: World, node: Id, claim: Id, v: World)
    requires Queued(w) && Step(w, ReleaseEvent(node, claim), v)
    ensures Queued(v)
  {
    forall p | Open(v.store, p, v.clock)
      ensures v.store.demands[p].node in v.store.queues && v.store.queues[v.store.demands[p].node].pending {
      assert Open(w.store, p, w.clock);
      if v.store.demands[p].node == node && v.store != w.store {
        assert DemandLeft(w.store, p, node, v.clock);
      }
    }
  }

  lemma StepStaysQueued(w: World, e: Event, v: World)
    requires Queued(w) && Step(w, e, v)
    ensures Queued(v)
  {
    match e
    case EnqueueEvent(placement, node, request, digest, deadline) =>
      EnqueueStaysQueued(w, placement, node, request, digest, deadline, v);
    case ReleaseEvent(node, claim) => ReleaseStaysQueued(w, node, claim, v);
    case _ =>
      forall p | Open(v.store, p, v.clock)
        ensures v.store.demands[p].node in v.store.queues && v.store.queues[v.store.demands[p].node].pending {
        assert Open(w.store, p, w.clock) && v.store.demands[p].node == w.store.demands[p].node;
      }
  }

  /** A run: worlds joined by steps. */
  ghost predicate Run(worlds: seq<World>, events: seq<Event>)
  {
    && |worlds| == |events| + 1
    && forall i :: 0 <= i < |events| ==> Step(worlds[i], events[i], worlds[i + 1])
  }

  /** In every run an open demand's node is queued, whoever claims, settles or releases when. */
  lemma {:induction false} OpenDemandsAreQueued(worlds: seq<World>, events: seq<Event>, i: nat)
    requires Run(worlds, events) && i < |worlds| && Queued(worlds[0])
    ensures Queued(worlds[i])
  {
    if i > 0 {
      OpenDemandsAreQueued(worlds, events, i - 1);
      StepStaysQueued(worlds[i - 1], events[i - 1], worlds[i]);
    }
  }

  /** A release never puts a node off past the work it has left. */
  lemma ReleasedForItsWork(s: State, t: State, node: Id, claim: Id, now: int, p: Id)
    requires Releases(s, t, node, claim, now) && node in s.queues && s.queues[node].claim == Some(claim)
      && DemandLeft(s, p, node, now)
    ensures t.queues[node].pending && t.queues[node].available <= Max(now + 250, s.demands[p].available)
  {
    var time :| Earliest(s, node, now, time) && t.queues[node].available == Max(now + 250, time);
  }

  /** What a step from one store to another keeps of the demands: their nodes stay
      queued, and no row goes or becomes older. */
  ghost predicate KeepsDemands(s: State, t: State, now: int)
  {
    && (forall clock :: clock <= now && Queued(World(s, clock)) ==> Queued(World(t, now)))
    && forall p :: p in s.demands ==> p in t.demands && SameOrNewer(s.demands[p], t.demands[p])
  }

  lemma StepKeepsDemands(s: State, t: State, now: int, e: Event)
    requires forall clock :: clock <= now ==> Step(World(s, clock), e, World(t, now))
    ensures KeepsDemands(s, t, now)
  {
    forall clock | clock <= now && Queued(World(s, clock)) ensures Queued(World(t, now)) {
      StepStaysQueued(World(s, clock), e, World(t, now));
    }
    forall p | p in s.demands ensures p in t.demands && SameOrNewer(s.demands[p], t.demands[p]) {
      assert Step(World(s, now), e, World(t, now));
      DemandsOnlyGetNewer(World(s, now), e, World(t, now), p);
    }
  }

  lemma EnqueueKeepsDemands(s: State, placement: Id, node: Id, request: Id, digest: nat, deadline: int, now: int,
      t: State)
    requires var r := Enqueue(s, placement, node, request, digest, deadline, now); t == if r.Ok? then r.value else s
    ensures KeepsDemands(s, t, now)
  {
    StepKeepsDemands(s, t, now, EnqueueEvent(placement, node, request, digest, deadline));
  }

  lemma SettleKeepsDemands(s: State, node: Id, claim: Id, placement: Id, d: Demand, retry: bool, now: int)
    ensures KeepsDemands(s, Settle(s, node, claim, placement, d, retry, now), now)
  {
    StepKeepsDemands(s, Settle(s, node, claim, placement, d, retry, now), now,
      SettleEvent(node, claim, placement, d, retry));
  }

  // ----- leases -----

  /** Until its lease ends a claim is taken away only by its own release. */
  lemma LeaseHolds(w: World, e: Event, v: World, node: Id, claim: Id)
    requires Step(w, e, v) && node in w.store.queues && w.store.queues[node].claim == Some(claim)
      && w.store.queues[node].lease > v.clock
    requires e != ReleaseEvent(node, claim)
    ensures node in v.store.queues && v.store.queues[node].claim == Some(claim)
      && v.store.queues[node].lease == w.store.queues[node].lease
  {
  }

  /** A claim that is no longer held at some time stays lost: a lease is neither
      prolonged nor given back, only a new claim is made. */
  lemma LostStaysLost(w: World, e: Event, v: World, node: Id, claim: Id)
    requires Step(w, e, v) && !Holds(w.store, node, claim, w.clock) && !(e.ClaimEvent? && e.claim == claim)
    ensures !Holds(v.store, node, claim, v.clock)
  {
  }

  lemma {:induction false} LostForGood(worlds: seq<World>, events: seq<Event>, i: nat, j: nat, node: Id, claim: Id)
    requires Run(worlds, events) && i <= j < |worlds| && !Holds(worlds[i].store, node, claim, worlds[i].clock)
    requires forall k :: i <= k < |events| && events[k].ClaimEvent? ==> events[k].claim != claim
    ensures !Holds(worlds[j].store, node, claim, worlds[j].clock)
    decreases j
  {
    if i < j {
      LostForGood(worlds, events, i, j - 1, node, claim);
      LostStaysLost(worlds[j - 1], events[j - 1], worlds[j], node, claim);
    }
  }

  /** In every run, a worker whose claim on a node expired, was released or was
      replaced can settle, put off or drop nothing of that node any more, at no later
      time and with whatever demand it still remembers. Claim ids are never drawn twice. */
  lemma LostClaimNeverSettles(worlds: seq<World>, events: seq<Event>, i: nat, j: nat, node: Id, claim: Id, now: int,
      placement: Id, d: Demand, grant: Id, work: Work, retry: bool)
    requires Run(worlds, events) && i <= j < |worlds| && !Holds(worlds[i].store, node, claim, worlds[i].clock)
    requires forall k :: i <= k < |events| && events[k].ClaimEvent? ==> events[k].claim != claim
    requires now >= worlds[j].clock
    ensures var s := worlds[j].store;
      && Settle(s, node, claim, placement, d, retry, now) == s
        && SettleWork(s, node, claim, grant, work, retry, now) == s
      && ExpireDemands(s, node, claim, now) == s
  {
    LostForGood(worlds, events, i, j, node, claim);
  }

  // ----- a settlement never completes a newer demand -----

  /** A placement's row either is the same demand, or a newer one. */
  predicate SameOrNewer(a: Demand, b: Demand)
  {
    (b.request == a.request && b.revision == a.revision && b.deadline == a.deadline && b.node == a.node)
      || b.revision > a.revision
  }

  lemma DemandsOnlyGetNewer(w: World, e: Event, v: World, p: Id)
    requires Step(w, e, v) && p in w.store.demands
    ensures p in v.store.demands && SameOrNewer(w.store.demands[p], v.store.demands[p])
  {
  }

  lemma {:induction false} LaterRowIsSameOrNewer(worlds: seq<World>, events: seq<Event>, i: nat, j: nat, p: Id)
    requires Run(worlds, events) && i <= j < |worlds| && p in worlds[i].store.demands
    ensures p in worlds[j].store.demands && SameOrNewer(worlds[i].store.demands[p], worlds[j].store.demands[p])
    decreases j
  {
    if i < j {
      LaterRowIsSameOrNewer(worlds, events, i, j - 1, p);
      DemandsOnlyGetNewer(worlds[j - 1], events[j - 1], worlds[j], p);
    }
  }

  /** Settling a demand read at any earlier time touches at most that demand: a row
      that replaced it since stays exactly as it is. */
  lemma SettlingSparesNewerDemands(worlds: seq<World>, events: seq<Event>, i: nat, j: nat, p: Id, node: Id, claim: Id,
      retry: bool, now: int)
    requires Run(worlds, events) && i <= j < |worlds| && p in worlds[i].store.demands
    ensures var d, s := worlds[i].store.demands[p], worlds[j].store;
      p in s.demands && (s.demands[p].revision != d.revision ==> Settle(s, node, claim, p, d, retry, now) == s)
      && (Settle(s, node, claim, p, d, retry, now) != s ==>
        s.demands[p].request == d.request && s.demands[p].revision == d.revision && s.demands[p].deadline == d.deadline)
  {
    LaterRowIsSameOrNewer(worlds, events, i, j, p);
  }
}
