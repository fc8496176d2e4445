/** The node row, its deployments and a connected stream as the source updates
    them in place; each method does what the step of the same name says. */
module DeploymentStore {
  import opened Results
  import opened Deployments

  // ----- what the transactions do, field by field -----

  /** The deployments that are left of some: the desired, the applied and the sent one. */
  ghost predicate LeftOf(all: map<int, nat>, now: Node)
  {
    && (forall r :: r in now.deployments <==> r in all && (r == now.desired || r == now.applied || r == now.sent))
    && forall r :: r in now.deployments ==> now.deployments[r] == all[r]
  }

  /** A payload other than the desired one becomes the desired one under the next revision. */
  ghost predicate PublishDone(n: Node, m: Node, payload: nat, r: Result<int>)
  {
    var same := n.desired in n.deployments && n.deployments[n.desired] == payload;
    && (r.Ok? <==> !n.fenced && (same || n.desired != MAX_INT64))
    && (r.Err? || same ==> m == n)
    && (r.Ok? && same ==> r.value == n.desired)
    && (r.Ok? && !same ==>
      && r.value == n.desired + 1 && m == n.(desired := n.desired + 1, deployments := m.deployments)
      && LeftOf(n.deployments[n.desired + 1 := payload], m))
  }

  /** A node ahead of the store in anything fences it; any other gets the next generation. */
  ghost predicate BeginDone(n: Node, m: Node, hello: Hello, cursor: int, r: Result<int>)
  {
    var ahead := hello.generation > n.generation || hello.desired > n.desired || hello.applied > n.desired
      || hello.usage > cursor;
    && (r.Ok? <==> !n.fenced && !ahead && n.generation != MAX_INT64)
    && (r.Err? ==> m == n.(fenced := n.fenced || ahead))
    && (r.Ok? ==> r.value == n.generation + 1 && m == n.(generation := n.generation + 1, sent := 0))
  }

  /** The node's own session gets the desired deployment, if there is one, and it counts as sent. */
  ghost predicate DeliveryDone(n: Node, m: Node, session: int, r: Result<Option<Delivered>>)
  {
    && (r.Ok? <==>
      0 < session == n.generation && !n.fenced && (n.desired == 0 || n.desired in n.deployments))
    && (r.Err? || r.value.None? ==> m == n)
    && (r.Ok? ==> (r.value.None? <==> n.desired == 0))
    && (r.Ok? && r.value.Some? ==>
      && r.value.value == Delivered(n.desired, n.deployments[n.desired])
      && m == n.(sent := n.desired, deployments := m.deployments) && LeftOf(n.deployments, m))
  }

  /** The node's own session reports on a stored deployment with its payload; a newer applied
      and acknowledged one becomes the applied one. */
  ghost predicate ObserveDone(n: Node, m: Node, session: int, o: ApplyResult, r: Result<()>)
  {
    && (r.Ok? <==>
      && 0 < session == n.generation && 1 <= o.revision <= MAX_INT64 && !n.fenced
      && o.revision in n.deployments && n.deployments[o.revision] == o.payload
      && (o.stage == Applied ==> o.acknowledged))
    && (r.Err? ==> m == n)
    && (r.Ok? ==>
      && m == n.(applied := if o.stage == Applied && n.applied < o.revision then o.revision else n.applied,
        deployments := m.deployments)
      && LeftOf(n.deployments, m))
  }

  class Store {
    var fenced: bool
    var generation: int
    var desired: int
    var applied: int
    var sent: int
    var deployments: map<int, nat>

    function View(): Node
      reads this
    {
      Node(fenced, generation, desired, applied, sent, deployments)
    }

    constructor ()
      ensures View() == NEW_NODE
    {
      fenced, generation, desired, applied, sent, deployments := false, 0, 0, 0, 0, map[];
    }

    method PruneDeployments()
      modifies `deployments
      ensures View() == Prune(old(View()))
      ensures LeftOf(old(deployments), View())
      ensures NodeOk(old(View())) ==> Keeps(old(View()), View()) && |deployments| <= 3
    {
      if NodeOk(View()) {
        PruneKeeps(View());
      }
      var keep := {desired, applied, sent};
      deployments := map r | r in deployments && r in keep :: deployments[r];
    }

    method Publish(payload: nat) returns (r: Result<int>)
      modifies this
      ensures (View(), r) == Deployments.Publish(old(View()), payload)
      ensures PublishDone(old(View()), View(), payload, r)
      ensures NodeOk(old(View())) ==> Keeps(old(View()), View())
      ensures NodeOk(old(View())) && r.Ok? ==>
        r.value == desired && desired in deployments && deployments[desired] == payload
      ensures generation == old(generation) && applied == old(applied) && sent == old(sent)
        && (r.Err? ==> View() == old(View()))
    {
      if NodeOk(View()) {
        PublishKeeps(View(), payload);
      }
      if fenced {
        return Err(Recovery);
      }
      if desired in deployments && deployments[desired] == payload {
        return Ok(desired);
      }
      if desired == MAX_INT64 {
        return Err(Revision);
      }
      desired := desired + 1;
      deployments := deployments[desired := payload];
      PruneDeployments();
      return Ok(desired);
    }

    method BeginSession(hello: Hello, cursor: int) returns (r: Result<int>)
      modifies this
      ensures (View(), r) == Deployments.BeginSession(old(View()), hello, cursor)
      ensures BeginDone(old(View()), View(), hello, cursor, r)
      ensures NodeOk(old(View())) ==> Keeps(old(View()), View())
      ensures r.Ok? ==> r.value == generation && old(generation) < generation
      ensures r.Err? ==> View() == old(View()).(fenced := fenced)
      ensures hello.generation > old(generation) || hello.usage > cursor ==> fenced && r == Err(Recovery)
      ensures hello.desired > old(desired) || hello.applied > old(desired) ==> fenced && r == Err(Recovery)
    {
      if NodeOk(View()) {
        BeginKeeps(View(), hello, cursor);
      }
      if fenced {
        return Err(Recovery);
      }
      if hello.generation > generation || hello.desired > desired || hello.applied > desired || hello.usage > cursor {
        fenced := true;
        return Err(Recovery);
      }
      if generation == MAX_INT64 {
        return Err(Revision);
      }
      generation, sent := generation + 1, 0;
      return Ok(generation);
    }

    method Delivery(session: int) returns (r: Result<Option<Delivered>>)
      modifies this
      ensures (View(), r) == Deployments.Delivery(old(View()), session)
      ensures DeliveryDone(old(View()), View(), session, r)
      ensures NodeOk(old(View())) ==> Keeps(old(View()), View())
      ensures session != old(generation) ==> View() == old(View()) && r.Err?
      ensures r.Ok? && r.value.Some? ==>
        r.value == Some(Delivered(old(desired), old(deployments)[old(desired)])) && sent == old(desired)
    {
      if NodeOk(View()) {
        DeliveryKeeps(View(), session);
      }
      if session <= 0 {
        return Err(Scope);
      }
      if fenced {
        return Err(Recovery);
      }
      if generation != session {
        return Err(Scope);
      }
      if desired == 0 {
        return Ok(None);
      }
      if desired !in deployments {
        return Err(NotFound);
      }
      var d := Delivered(desired, deployments[desired]);
      sent := desired;
      PruneDeployments();
      return Ok(Some(d));
    }

    method Observe(session: int, outcome: ApplyResult) returns (r: Result<()>)
      modifies this
      ensures (View(), r) == Deployments.Observe(old(View()), session, outcome)
      ensures ObserveDone(old(View()), View(), session, outcome, r)
      ensures NodeOk(old(View())) ==> Keeps(old(View()), View())
      ensures session != old(generation) ==> View() == old(View()) && r.Err?
      ensures applied != old(applied) ==>
        r.Ok? && outcome.stage == Applied && applied == outcome.revision > old(applied)
    {
      if NodeOk(View()) {
        ObserveKeeps(View(), session, outcome);
      }
      if session <= 0 || outcome.revision <= 0 || outcome.revision > MAX_INT64 {
        return Err(Invalid);
      }
      if fenced {
        return Err(Recovery);
      }
      if generation != session {
        return Err(Scope);
      }
      if outcome.revision !in deployments {
        return Err(NotFound);
      }
      if deployments[outcome.revision] != outcome.payload {
        return Err(Revision);
      }
      if outcome.stage == Applied && !outcome.acknowledged {
        return Err(Scope);
      }
      if outcome.stage == Applied && outcome.revision > applied {
        applied := outcome.revision;
      }
      PruneDeployments();
      return Ok(());
    }
  }

  /** A connected node's loop: `attempted` and `pending` decide what it sends and
      which outcome it takes. `open` is false once the stream is over. */
  class Stream {
    const store: Store
    const generation: int
    var attempted: int
    var payload: nat
    var pending: bool

    function View(): Session
      reads this
    {
      Session(generation, attempted, payload, pending)
    }

    constructor (store: Store, generation: int)
      ensures this.store == store && View() == Session(generation, 0, 0, false)
    {
      this.store, this.generation, attempted, payload, pending := store, generation, 0, 0, false;
    }

    method Send(force: bool, broken: bool) returns (open: bool)
      modifies this, store
      ensures var w := SendStep(World(old(store.View()), map[0 := old(View())], None), 0, force, broken);
        w.node == store.View() && (open <==> 0 in w.sessions) && (open ==> w.sessions[0] == View())
      ensures NodeOk(old(store.View())) && SessionOk(old(store.View()), old(View())) ==>
        Keeps(old(store.View()), store.View()) && (open ==> SessionOk(store.View(), View()))
      ensures generation != old(store.generation) ==> store.View() == old(store.View())
      ensures old(pending) ==> open && View() == old(View()) && store.View() == old(store.View())
    {
      SendKeepsStream(store.View(), View(), force, broken);
      if pending {
        return true;
      }
      var delivery := store.Delivery(generation);
      if delivery.Err? {
        return false;
      }
      if delivery.value.None? || (delivery.value.value.revision == attempted && !force) {
        return true;
      }
      if broken {
        return false;
      }
      attempted, payload, pending := delivery.value.value.revision, delivery.value.value.payload, true;
      return true;
    }

    method TakeResult(r: ApplyResult) returns (open: bool)
      modifies this, store
      ensures var w := ResultStep(World(old(store.View()), map[0 := old(View())], None), 0, r);
        w.node == store.View() && (open <==> 0 in w.sessions) && (open ==> w.sessions[0] == View())
      ensures NodeOk(old(store.View())) && SessionOk(old(store.View()), old(View())) ==>
        Keeps(old(store.View()), store.View()) && (open ==> SessionOk(store.View(), View()))
      ensures generation != old(store.generation) ==> store.View() == old(store.View()) && !open
      ensures !old(pending) || r.revision != old(attempted) ==> store.View() == old(store.View()) && !open
    {
      ResultKeepsStream(store.View(), View(), r);
      if r.revision != attempted || !pending {
        return false;
      }
      var outcome := store.Observe(generation, r);
      if outcome.Err? {
        return false;
      }
      if r.stage != Received {
        pending := false;
      }
      return true;
    }
  }
}
