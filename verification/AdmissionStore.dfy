/** The queue's tables as the source updates them, one method a transaction. */
module AdmissionStore {
  import opened Results
  import opened Admissions

  ghost function Left(r: Result<State>, s: State): State
  {
    if r.Ok? then r.value else s
  }

  // ----- what the transactions do, row by row -----

  /** A demand is taken within fifteen seconds of its deadline: the same request again
      changes nothing, a new one replaces the placement's last and wakes its node. */
  predicate EnqueueDone(s: State, t: State, placement: Id, node: Id, request: Id, digest: nat, deadline: int,
      now: int, r: Result<()>)
  {
    var again := placement in s.demands && s.demands[placement].request == request;
    var revision := if placement in s.demands then s.demands[placement].revision else 0;
    && (r.Ok? <==>
      && now < deadline <= now + 15_000 && request != 0
      && (if again then s.demands[placement].digest == digest else revision != MAX_INT64))
    && (r.Err? || again ==> t == s)
    && (r.Ok? && !again ==>
      && t == s.(demands := s.demands[placement :=
        Demand(node, request, digest, revision + 1, deadline, now, 0, true)], queues := t.queues)
      && node in t.queues && t.queues == s.queues[node := t.queues[node]] && t.queues[node].pending
      && (if node in s.queues then
            && t.queues[node].claim == s.queues[node].claim && t.queues[node].lease == s.queues[node].lease
            && t.queues[node].available ==
              if s.queues[node].pending && s.queues[node].available < now then s.queues[node].available else now
          else t.queues[node] == Queue(true, now, None, 0)))
  }

  /** A settlement counts for the row it names, while the settler's lease on the node runs. */
  predicate MaySettle(s: State, node: Id, claim: Id, placement: Id, d: Demand, now: int)
  {
    && d.node == node && d.request != 0 && d.revision > 0 && placement in s.demands
    && s.demands[placement].node == node && s.demands[placement].request == d.request
    && s.demands[placement].revision == d.revision && s.demands[placement].pending
    && node in s.queues && s.queues[node].claim == Some(claim) && s.queues[node].lease > now
  }

  /** Seconds until the next try: doubling from two, and thirty from the fifth on. */
  predicate Delays(attempts: int, seconds: int)
  {
    && (attempts <= 1 ==> seconds == 2) && (attempts == 2 ==> seconds == 4) && (attempts == 3 ==> seconds == 8)
    && (attempts == 4 ==> seconds == 16) && (attempts >= 5 ==> seconds == 30)
  }

  /** A demand to be tried again: still pending, one try on up to five, and available after
      its delay but no later than its deadline. */
  ghost predicate TriedAgain(was: Demand, after: Demand, d: Demand, now: int)
  {
    && after == was.(attempts := after.attempts, available := after.available)
    && after.attempts == (if d.attempts < 4 then d.attempts + 1 else 5)
    && (exists seconds :: Delays(after.attempts, seconds)
         && after.available == if now + 1000 * seconds < d.deadline then now + 1000 * seconds else d.deadline)
  }

  ghost predicate SettleDone(s: State, t: State, node: Id, claim: Id, placement: Id, d: Demand, retry: bool, now: int)
  {
    if !MaySettle(s, node, claim, placement, d, now) then t == s
    else
      && placement in t.demands && t == s.(demands := s.demands[placement := t.demands[placement]])
      && var was, after := s.demands[placement], t.demands[placement];
      if retry && now < d.deadline then TriedAgain(was, after, d, now) else after == was.(pending := false)
  }

  /** While the lease runs, the node's pending demands past their deadline are dropped, and no others. */
  predicate ExpiryDone(s: State, t: State, node: Id, claim: Id, now: int)
  {
    && t == s.(demands := t.demands) && t.demands.Keys == s.demands.Keys
    && forall p :: p in s.demands ==>
      t.demands[p] ==
        if s.demands[p].node == node && s.demands[p].pending && s.demands[p].deadline <= now && node in s.queues
          && s.queues[node].claim == Some(claim) && s.queues[node].lease > now
        then s.demands[p].(pending := false) else s.demands[p]
  }

  lemma RetryIsTriedAgain(was: Demand, d: Demand, now: int)
    requires d.deadline > now
    ensures TriedAgain(was, Settled(was, d, true, now), d, now)
  {
    assert Delays(Settled(was, d, true, now).attempts, Backoff(Settled(was, d, true, now).attempts));
  }

  lemma SettleDoes(s: State, node: Id, claim: Id, placement: Id, d: Demand, retry: bool, now: int)
    requires d.request != 0 && d.revision > 0
    ensures SettleDone(s, Settle(s, node, claim, placement, d, retry, now), node, claim, placement, d, retry, now)
  {
    if MaySettle(s, node, claim, placement, d, now) && retry && now < d.deadline {
      RetryIsTriedAgain(s.demands[placement], d, now);
    }
  }

  class Store {
    var demands: map<Id, Demand>
    var work: map<Id, Work>
    var queues: map<Id, Queue>

    function View(): State
      reads this
    {
      State(demands, work, queues)
    }

    constructor ()
      ensures View() == EMPTY
    {
      demands, work, queues := map[], map[], map[];
    }

    method EnqueueDemand(placement: Id, node: Id, request: Id, digest: nat, deadline: int, now: int)
        returns (r: Result<()>)
      modifies this
      ensures match Enqueue(old(View()), placement, node, request, digest, deadline, now)
        case Ok(s) => r == Ok(()) && View() == s
        case Err(e) => r == Err(e) && View() == old(View())
      ensures EnqueueDone(old(View()), View(), placement, node, request, digest, deadline, now, r)
      ensures KeepsDemands(old(View()), View(), now)
      ensures r.Ok? ==>
        placement in demands && demands[placement].request == request && demands[placement].digest == digest
      ensures View() != old(View()) ==>
        demands[placement].pending && node in queues && queues[node].pending && queues[node].available <= now
      ensures forall n :: n in old(queues) ==>
        n in queues && queues[n].claim == old(queues)[n].claim && queues[n].lease == old(queues)[n].lease
    {
      EnqueueKeepsDemands(View(), placement, node, request, digest, deadline, now,
        Left(Enqueue(View(), placement, node, request, digest, deadline, now), View()));
      if deadline <= now || deadline > now + HORIZON || !ValidId(request) {
        return Err(Scope);
      }
      var revision := 0;
      if placement in demands {
        var previous := demands[placement];
        if previous.request == request {
          if previous.digest != digest {
            return Err(Conflict);
          }
          return Ok(());
        }
        revision := previous.revision;
      }
      if revision == MAX_INT64 {
        return Err(Revision);
      }
      demands := demands[placement := Demand(node, request, digest, revision + 1, deadline, now, 0, true)];
      if node in queues {
        var q := queues[node];
        var available := if q.pending && q.available <= now then q.available else now;
        queues := queues[node := q.(pending := true, available := available)];
      } else {
        queues := queues[node := Queue(true, now, None, 0)];
      }
      return Ok(());
    }

    /** Leases up to `limit` due nodes, the longest due first; rows another worker
        has locked are passed over. */
    method ClaimNodes(limit: int, claim: Id, locked: set<Id>, now: int) returns (r: Result<set<Id>>)
      modifies `queues
      ensures r.Err? <==> limit < 1 || limit > 4
      ensures r.Err? ==> View() == old(View())
      ensures r.Ok? ==>
        (forall n :: n in r.value ==> n in old(queues) && Due(old(queues)[n], now) && n !in locked)
        && |r.value| <= limit
      ensures r.Ok? ==> View() == Claim(old(View()), r.value, claim, now)
      ensures r.Ok? ==>
        && demands == old(demands) && work == old(work) && queues.Keys == old(queues).Keys
        && forall n :: n in queues ==>
          queues[n] == if n in r.value
            then Queue(old(queues)[n].pending, old(queues)[n].available, Some(claim), now + 60_000)
            else old(queues)[n]
      ensures r.Ok? && |r.value| < limit ==>
        forall n :: n in old(queues) && Due(old(queues)[n], now) && n !in locked ==> n in r.value
      ensures r.Ok? ==>
        forall n, m :: n in r.value && m in old(queues) && Due(old(queues)[m], now) && m !in locked && m !in r.value ==>
          old(queues)[n].available <= old(queues)[m].available
    {
      if limit < 1 || limit > 4 {
        return Err(Invalid);
      }
      var chosen: set<Id>, due := {}, set n | n in queues && Due(queues[n], now) && n !in locked;
      while due != {} && |chosen| < limit
        invariant queues == old(queues)
        invariant forall n :: n in due || n in chosen <==> n in queues && Due(queues[n], now) && n !in locked
        invariant due !! chosen && |chosen| <= limit
        invariant forall n, m :: n in chosen && m in due ==> queues[n].available <= queues[m].available
        decreases |due|
      {
        var first := EarliestOf(due);
        chosen, due := chosen + {first}, due - {first};
      }
      queues := map n | n in queues :: if n in chosen then queues[n].(claim := Some(claim), lease := now + LEASE)
        else queues[n];
      return Ok(chosen);
    }

    method EarliestOf(nodes: set<Id>) returns (first: Id)
      requires nodes != {} && nodes <= queues.Keys
      ensures first in nodes && forall n :: n in nodes ==> queues[first].available <= queues[n].available
    {
      first :| first in nodes;
      var rest := nodes - {first};
      while rest != {}
        invariant rest <= nodes && first in nodes && forall n :: n in nodes && n !in rest ==>
          queues[first].available <= queues[n].available
      {
        var n :| n in rest;
        first, rest := if queues[n].available < queues[first].available then n else first, rest - {n};
      }
    }

    /** Drops a held node's demands past their deadline, row by row. */
    method DropExpired(node: Id, claim: Id, now: int)
      modifies `demands
      ensures View() == ExpireDemands(old(View()), node, claim, now)
      ensures ExpiryDone(old(View()), View(), node, claim, now)
    {
      if node !in queues || queues[node].claim != Some(claim) || queues[node].lease <= now {
        return;
      }
      var todo := demands.Keys;
      while todo != {}
        invariant todo <= demands.Keys == old(demands).Keys
        invariant forall p :: p in demands ==>
          demands[p] == if p in todo then old(demands)[p] else Expired(old(demands)[p], node, now)
      {
        var p :| p in todo;
        if demands[p].node == node && demands[p].pending && demands[p].deadline <= now {
          demands := demands[p := demands[p].(pending := false)];
        }
        todo := todo - {p};
      }
    }

    method SettleDemand(node: Id, claim: Id, placement: Id, d: Demand, retry: bool, now: int) returns (r: Result<()>)
      modifies `demands
      ensures r == if d.node == node && ValidId(d.request) && d.revision > 0 then Ok(()) else Err(Invalid)
      ensures View() == if r.Ok? then Settle(old(View()), node, claim, placement, d, retry, now) else old(View())
      ensures SettleDone(old(View()), View(), node, claim, placement, d, retry, now)
      ensures KeepsDemands(old(View()), View(), now)
      ensures View() != old(View()) ==> Holds(old(View()), node, claim, now) && Matches(old(View()), node, placement, d)
      ensures work == old(work) && queues == old(queues) && forall p :: p in demands && p != placement ==>
        p in old(demands) && demands[p] == old(demands)[p]
    {
      SettleKeepsDemands(View(), node, claim, placement, d, retry, now);
      if d.request != 0 && d.revision > 0 {
        SettleDoes(View(), node, claim, placement, d, retry, now);
      }
      if d.node != node || !ValidId(d.request) || d.revision <= 0 {
        return Err(Invalid);
      }
      if placement in demands && demands[placement].node == node && demands[placement].request == d.request
        && demands[placement].revision == d.revision
        && demands[placement].pending && node in queues && queues[node].claim == Some(claim)
          && queues[node].lease > now {
        var row := demands[placement];
        if retry && d.deadline > now {
          var attempts := if d.attempts + 1 < 5 then d.attempts + 1 else 5;
          var later := now + Backoff(attempts) * 1000;
          row := row.(attempts := attempts, available := if d.deadline <= later then d.deadline else later);
        } else {
          row := row.(pending := false);
        }
        demands := demands[placement := row];
      }
      return Ok(());
    }

    /** The earliest work a node has left, if any. */
    method EarliestLeft(node: Id, now: int) returns (time: Option<int>)
      ensures time.None? <==> !AnyLeft(View(), node, now)
      ensures time.Some? ==> Earliest(View(), node, now, time.value)
    {
      time := None;
      var todo := demands.Keys;
      while todo != {}
        invariant todo <= demands.Keys
        invariant time.None? ==> forall p :: DemandLeft(View(), p, node, now) ==> p in todo
        invariant time.Some? ==>
          (forall p :: DemandLeft(View(), p, node, now) && p !in todo ==> time.value <= demands[p].available)
        invariant time.Some? ==> exists p :: DemandLeft(View(), p, node, now) && time.value == demands[p].available
      {
        var p :| p in todo;
        if demands[p].node == node && demands[p].pending && demands[p].deadline > now
          && (time.None? || demands[p].available < time.value) {
          assert DemandLeft(View(), p, node, now);
          time := Some(demands[p].available);
        }
        todo := todo - {p};
      }
      todo := work.Keys;
      while todo != {}
        invariant todo <= work.Keys
        invariant time.None? ==>
          (forall p :: !DemandLeft(View(), p, node, now)) && forall g :: WorkLeft(View(), g, node, now) ==> g in todo
        invariant time.Some? ==>
          (forall p :: DemandLeft(View(), p, node, now) ==> time.value <= demands[p].available)
          && forall g :: WorkLeft(View(), g, node, now) && g !in todo ==> time.value <= work[g].available
        invariant time.Some? ==>
          (exists p :: DemandLeft(View(), p, node, now) && time.value == demands[p].available)
          || exists g :: WorkLeft(View(), g, node, now) && time.value == work[g].available
      {
        var g :| g in todo;
        if work[g].node == node && work[g].pending && work[g].deadline > now
          && (time.None? || work[g].available < time.value) {
          assert WorkLeft(View(), g, node, now);
          time := Some(work[g].available);
        }
        todo := todo - {g};
      }
    }

    method ReleaseNode(node: Id, claim: Id, now: int)
      modifies `queues
      ensures Releases(old(View()), View(), node, claim, now)
    {
      if node !in queues || queues[node].claim != Some(claim) {
        return;
      }
      var time := EarliestLeft(node, now);
      var q := queues[node].(pending := time.Some?, claim := None, lease := 0);
      if time.Some? {
        q := q.(available := if now + 250 <= time.value then time.value else now + 250);
      }
      queues := queues[node := q];
    }
  }
}
