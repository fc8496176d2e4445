/** Deployments of one node and the sessions that deliver them. A session is
    fenced by its generation: only the newest one can move the node. */
module Deployments {
  import opened Results

  /** The node row and its stored deployments, by revision. */
  datatype Node = Node(fenced: bool, generation: int, desired: int, applied: int, sent: int, deployments: map<int, nat>)

  const NEW_NODE := Node(false, 0, 0, 0, 0, map[])

  /** What a node says it has when it connects. */
  datatype Hello = Hello(generation: int, desired: int, applied: int, usage: int)

  datatype Delivered = Delivered(revision: int, payload: nat)

  datatype Stage = Received | Applied | Rejected

  /** An outcome; `acknowledged` says whether the rest of the transaction that takes
      an applied one, the settlement of its shares and stops, goes through. */
  datatype ApplyResult = ApplyResult(revision: int, payload: nat, stage: Stage, acknowledged: bool)

  /** Only the desired, applied and sent deployments are kept. */
  function Prune(n: Node): Node
  {
    n.(deployments := map r | r in n.deployments
      && (r == n.desired || r == n.applied || r == n.sent) :: n.deployments[r])
  }

  function Publish(n: Node, payload: nat): (Node, Result<int>)
  {
    if n.fenced then (n, Err(Recovery))
    else if n.desired in n.deployments && n.deployments[n.desired] == payload then (n, Ok(n.desired))
    else if n.desired == MAX_INT64 then (n, Err(Revision))
    else (Prune(n.(desired := n.desired + 1, deployments := n.deployments[n.desired + 1 := payload])),
      Ok(n.desired + 1))
  }

  /** A node ahead of the store fences the store; any other starts a new session. */
  function BeginSession(n: Node, hello: Hello, cursor: int): (Node, Result<int>)
  {
    if n.fenced then (n, Err(Recovery))
    else if hello.generation > n.generation || hello.desired > n.desired || hello.applied > n.desired
      || hello.usage > cursor then (n.(fenced := true), Err(Recovery))
    else if n.generation == MAX_INT64 then (n, Err(Revision))
    else (n.(generation := n.generation + 1, sent := 0), Ok(n.generation + 1))
  }

  function Delivery(n: Node, generation: int): (Node, Result<Option<Delivered>>)
  {
    if generation <= 0 then (n, Err(Scope))
    else if n.fenced then (n, Err(Recovery))
    else if n.generation != generation then (n, Err(Scope))
    else if n.desired == 0 then (n, Ok(None))
    else if n.desired !in n.deployments then (n, Err(NotFound))
    else (Prune(n.(sent := n.desired)), Ok(Some(Delivered(n.desired, n.deployments[n.desired]))))
  }

  function Observe(n: Node, generation: int, r: ApplyResult): (Node, Result<()>)
  {
    if generation <= 0 || r.revision <= 0 || r.revision > MAX_INT64 then (n, Err(Invalid))
    else if n.fenced then (n, Err(Recovery))
    else if n.generation != generation then (n, Err(Scope))
    else if r.revision !in n.deployments then (n, Err(NotFound))
    else if n.deployments[r.revision] != r.payload then (n, Err(Revision))
    else if r.stage == Applied && !r.acknowledged then (n, Err(Scope))
    else (Prune(if r.stage == Applied && r.revision > n.applied then n.(applied := r.revision) else n), Ok(()))
  }

  // ----- sessions -----

  /** What a connected stream remembers: its generation, the last revision it
      sent with its payload, and whether it waits for the outcome. */
  datatype Session = Session(generation: int, attempted: int, payload: nat, pending: bool)

  /** `registered` is the session the service talks to. */
  datatype World = World(node: Node, sessions: map<nat, Session>, registered: Option<nat>)

  datatype Event =
    | PublishEvent(payload: nat)
    | Connect(id: nat, hello: Hello, cursor: int)
    | Register(registering: nat)
    | Send(sender: nat, force: bool, broken: bool)
    | ResultEvent(reporter: nat, result: ApplyResult)
    | Close(closing: nat)
    | Hold

  function Closed(w: World, id: nat): World
  {
    w.(sessions := w.sessions - {id}, registered := if w.registered == Some(id) then None else w.registered)
  }

  /** A session sends the desired deployment unless it waits for one already. */
  function SendStep(w: World, id: nat, force: bool, broken: bool): World
    requires id in w.sessions
  {
    var s := w.sessions[id];
    if s.pending then w
    else
      var (node, delivery) := Delivery(w.node, s.generation);
      var v := w.(node := node);
      if delivery.Err? then Closed(v, id)
      else if delivery.value.None? || (delivery.value.value.revision == s.attempted && !force) then v
      else if broken then Closed(v, id)
      else v.(sessions :=
        v.sessions[id := s.(attempted := delivery.value.value.revision, payload := delivery.value.value.payload,
        pending := true)])
  }

  /** A session takes the outcome it waits for, and ends over any other. */
  function ResultStep(w: World, id: nat, r: ApplyResult): World
    requires id in w.sessions
  {
    var s := w.sessions[id];
    if r.revision != s.attempted || !s.pending then Closed(w, id)
    else
      var (node, outcome) := Observe(w.node, s.generation, r);
      var v := w.(node := node);
      if outcome.Err? then Closed(v, id)
      else if r.stage == Received then v
      else v.(sessions := v.sessions[id := s.(pending := false)])
  }

  function Next(w: World, e: Event): World
  {
    match e
    case PublishEvent(payload) => w.(node := Publish(w.node, payload).0)
    case Connect(id, hello, cursor) =>
      var (node, begun) := BeginSession(w.node, hello, cursor);
      if begun.Err? || id in w.sessions then w.(node := node)
      else w.(node := node, sessions := w.sessions[id := Session(begun.value, 0, 0, false)])
    case Register(id) =>
      if id !in w.sessions then w
      else if w.registered.Some? && w.registered.value in w.sessions
        && w.sessions[w.registered.value].generation >= w.sessions[id].generation then Closed(w, id)
      else w.(registered := Some(id))
    case Send(id, force, broken) => if id in w.sessions then SendStep(w, id, force, broken) else w
    case ResultEvent(id, r) => if id in w.sessions then ResultStep(w, id, r) else w
    case Close(id) => Closed(w, id)
    case Hold => w.(node := w.node.(fenced := true))
  }

  // ----- the invariant -----

  predicate Kept(n: Node, revision: int)
  {
    revision == 0 || revision in n.deployments
  }

  predicate NodeOk(n: Node)
  {
    && 0 <= n.applied <= n.desired && 0 <= n.sent <= n.desired && 0 <= n.generation
    && Kept(n, n.desired) && Kept(n, n.applied) && Kept(n, n.sent)
    && n.desired <= MAX_INT64 && forall r :: r in n.deployments ==> 0 < r <= n.desired
  }

  /** A session is live while its generation is the node's. */
  predicate SessionOk(n: Node, s: Session)
  {
    && 0 < s.generation <= n.generation && 0 <= s.attempted <= n.desired && (s.pending ==> s.attempted > 0)
    && (s.generation == n.generation && s.pending ==>
      n.sent == s.attempted && s.attempted in n.deployments && n.deployments[s.attempted] == s.payload)
  }

  predicate Inv(w: World)
  {
    && NodeOk(w.node) && (forall id :: id in w.sessions ==> SessionOk(w.node, w.sessions[id]))
    && (forall a, b ::
          a in w.sessions && b in w.sessions && w.sessions[a].generation == w.sessions[b].generation ==> a == b)
  }

  /** How a node may change while a session of its generation waits. */
  predicate Keeps(n: Node, m: Node)
  {
    && NodeOk(m) && n.generation <= m.generation && n.desired <= m.desired && n.applied <= m.applied
    && (forall r :: r in n.deployments && r in m.deployments ==> n.deployments[r] == m.deployments[r])
    && (forall r :: r in m.deployments && r <= n.desired ==> r in n.deployments)
  }

  /** Pruning keeps every payload that may still be delivered or awaited, and no more than three. */
  lemma PruneKeeps(n: Node)
    requires NodeOk(n)
    ensures Keeps(n, Prune(n)) && |Prune(n).deployments| <= 3
  {
    var kept, needed := Prune(n).deployments.Keys, {n.desired, n.applied, n.sent};
    assert kept <= needed;
    SubsetIsSmaller(kept, needed);
  }

  lemma SubsetIsSmaller(a: set<int>, b: set<int>)
    requires a <= b
    ensures |a| <= |b|
  {
    assert b == a + (b - a);
  }

  lemma PublishKeeps(n: Node, payload: nat)
    requires NodeOk(n)
    ensures Keeps(n, Publish(n, payload).0) && Publish(n, payload).0.generation == n.generation
      && Publish(n, payload).0.sent == n.sent
  {
  }

  lemma BeginKeeps(n: Node, hello: Hello, cursor: int)
    requires NodeOk(n)
    ensures var (m, r) := BeginSession(n, hello, cursor);
      Keeps(n, m) && (r.Ok? ==> m.generation == r.value == n.generation + 1)
        && (r.Err? ==> m.generation == n.generation && m.sent == n.sent) && m.deployments == n.deployments
  {
  }

  lemma DeliveryKeeps(n: Node, generation: int)
    requires NodeOk(n)
    ensures Keeps(n, Delivery(n, generation).0) && Delivery(n, generation).0.generation == n.generation
    ensures generation != n.generation ==> Delivery(n, generation).0 == n && Delivery(n, generation).1.Err?
    ensures Delivery(n, generation).1.Ok? && Delivery(n, generation).1.value.Some? ==>
      var m, d := Delivery(n, generation).0, Delivery(n, generation).1.value.value;
      d.revision == m.sent == n.desired && d.revision in m.deployments && m.deployments[d.revision] == d.payload
        && d.revision > 0
    ensures !(Delivery(n, generation).1.Ok? && Delivery(n, generation).1.value.Some?) ==> Delivery(n, generation).0 == n
  {
  }

  lemma ObserveKeeps(n: Node, generation: int, r: ApplyResult)
    requires NodeOk(n)
    ensures Keeps(n, Observe(n, generation, r).0) && Observe(n, generation, r).0.generation == n.generation
      && Observe(n, generation, r).0.sent == n.sent
    ensures generation != n.generation ==> Observe(n, generation, r).0 == n && Observe(n, generation, r).1.Err?
    ensures n.sent > 0 ==> n.sent in Observe(n, generation, r).0.deployments
  {
  }

  /** A waiting session is not disturbed while the node keeps its generation and what was sent. */
  lemma SessionStays(n: Node, m: Node, s: Session)
    requires NodeOk(n) && Keeps(n, m) && SessionOk(n, s) && (m.generation == n.generation ==> m.sent == n.sent)
    ensures SessionOk(m, s)
  {
  }

  lemma SessionsStay(w: World, m: Node)
    requires Inv(w) && Keeps(w.node, m) && (m.generation == w.node.generation ==> m.sent == w.node.sent)
    ensures Inv(w.(node := m))
  {
    forall id | id in w.sessions ensures SessionOk(m, w.sessions[id]) {
      SessionStays(w.node, m, w.sessions[id]);
    }
  }

  lemma ClosingKeeps(w: World, id: nat)
    requires Inv(w)
    ensures Inv(Closed(w, id))
  {
  }

  lemma SendKeepsInv(w: World, id: nat, force: bool, broken: bool)
    requires Inv(w) && id in w.sessions
    ensures Inv(SendStep(w, id, force, broken)) && Keeps(w.node, SendStep(w, id, force, broken).node)
  {
    var s := w.sessions[id];
    if !s.pending {
      DeliveryKeeps(w.node, s.generation);
      var (m, delivery) := Delivery(w.node, s.generation);
      // Another session of this generation would be this one, so nobody else waits on what was sent.
      forall k | k in w.sessions ensures SessionOk(m, w.sessions[k]) {
        if k != id && w.sessions[k].generation == m.generation {
          assert w.sessions[k].generation != s.generation;
          assert m == w.node;
        }
      }
      var v := w.(node := m);
      assert Inv(v);
      ClosingKeeps(v, id);
    }
  }

  lemma ResultKeepsInv(w: World, id: nat, r: ApplyResult)
    requires Inv(w) && id in w.sessions
    ensures Inv(ResultStep(w, id, r)) && Keeps(w.node, ResultStep(w, id, r).node)
  {
    var s := w.sessions[id];
    ClosingKeeps(w, id);
    if r.revision == s.attempted && s.pending {
      ObserveKeeps(w.node, s.generation, r);
      SessionsStay(w, Observe(w.node, s.generation, r).0);
      ClosingKeeps(w.(node := Observe(w.node, s.generation, r).0), id);
    }
  }

  /** One stream on its own, before and after a send or an outcome. */
  ghost predicate StreamKept(n: Node, s: Session, w: World)
  {
    && (NodeOk(n) && SessionOk(n, s) ==> Keeps(n, w.node) && (0 in w.sessions ==> SessionOk(w.node, w.sessions[0])))
    && (s.generation != n.generation ==> w.node == n)
  }

  lemma SendKeepsStream(n: Node, s: Session, force: bool, broken: bool)
    ensures StreamKept(n, s, SendStep(World(n, map[0 := s], None), 0, force, broken))
  {
    if NodeOk(n) && SessionOk(n, s) {
      SendKeepsInv(World(n, map[0 := s], None), 0, force, broken);
    }
  }

  lemma ResultKeepsStream(n: Node, s: Session, r: ApplyResult)
    ensures StreamKept(n, s, ResultStep(World(n, map[0 := s], None), 0, r))
  {
    if NodeOk(n) && SessionOk(n, s) {
      ResultKeepsInv(World(n, map[0 := s], None), 0, r);
    }
  }

  lemma ConnectKeepsInv(w: World, id: nat, hello: Hello, cursor: int)
    requires Inv(w)
    ensures Inv(Next(w, Connect(id, hello, cursor))) && Keeps(w.node, Next(w, Connect(id, hello, cursor)).node)
  {
    BeginKeeps(w.node, hello, cursor);
    SessionsStay(w, BeginSession(w.node, hello, cursor).0);
  }

  /** Every event keeps the invariant, and moves the node only forward: no revision
      goes back, no stored payload changes, no pruned revision returns. */
  lemma EventKeepsInv(w: World, e: Event)
    requires Inv(w)
    ensures Inv(Next(w, e)) && Keeps(w.node, Next(w, e).node)
  {
    match e
    case PublishEvent(payload) =>
      PublishKeeps(w.node, payload);
      SessionsStay(w, Publish(w.node, payload).0);
    case Connect(id, hello, cursor) => ConnectKeepsInv(w, id, hello, cursor);
    case Register(id) => ClosingKeeps(w, id);
    case Send(id, force, broken) => if id in w.sessions { SendKeepsInv(w, id, force, broken); }
    case ResultEvent(id, r) => if id in w.sessions { ResultKeepsInv(w, id, r); }
    case Close(id) => ClosingKeeps(w, id);
    case Hold => SessionsStay(w, w.node.(fenced := true));
  }

  function After(events: seq<Event>): World
  {
    if events == [] then World(NEW_NODE, map[], None) else Next(After(events[..|events| - 1]), events[|events| - 1])
  }

  lemma {:induction false} RunKeepsInv(events: seq<Event>)
    ensures Inv(After(events))
  {
    if events != [] {
      RunKeepsInv(events[..|events| - 1]);
      EventKeepsInv(After(events[..|events| - 1]), events[|events| - 1]);
    }
  }

  /** The node of any run against the node of any longer run. */
  lemma {:induction false} NodeOnlyMovesForward(events: seq<Event>, n: nat)
    requires n <= |events|
    ensures var a, b := After(events[..n]).node, After(events).node;
      a.generation <= b.generation && a.desired <= b.desired && a.applied <= b.applied && b.applied <= b.desired
    decreases |events|
  {
    RunKeepsInv(events);
    if n == |events| {
      assert events[..n] == events;
    } else {
      var init := events[..|events| - 1];
      assert init[..n] == events[..n];
      NodeOnlyMovesForward(init, n);
      RunKeepsInv(init);
      EventKeepsInv(After(init), events[|events| - 1]);
    }
  }

  /** A new session's generation is above every one before it. */
  lemma NewSessionsAreNewest(w: World, hello: Hello, cursor: int, id: nat)
    requires Inv(w) && BeginSession(w.node, hello, cursor).1.Ok? && id in w.sessions
    ensures w.sessions[id].generation < BeginSession(w.node, hello, cursor).1.value ==
      BeginSession(w.node, hello, cursor).0.generation
  {
    assert SessionOk(w.node, w.sessions[id]);
  }

  /** A superseded session changes nothing, whatever it does. */
  lemma SupersededChangesNothing(w: World, id: nat, force: bool, broken: bool, r: ApplyResult)
    requires Inv(w) && id in w.sessions && w.sessions[id].generation != w.node.generation
    ensures SendStep(w, id, force, broken).node == w.node && ResultStep(w, id, r).node == w.node
  {
    DeliveryKeeps(w.node, w.sessions[id].generation);
    ObserveKeeps(w.node, w.sessions[id].generation, r);
  }

  /** What a live session waits for is stored: its outcome, reported for the payload
      that was sent, is refused only where its acknowledgement is, and an accepted
      application is recorded. */
  lemma AwaitedResultIsAccepted(events: seq<Event>, id: nat, stage: Stage, acknowledged: bool)
    requires var w := After(events);
      id in w.sessions && w.sessions[id].pending && w.sessions[id].generation == w.node.generation && !w.node.fenced
    ensures var w := After(events); var s := w.sessions[id];
      var (n, r) := Observe(w.node, s.generation, ApplyResult(s.attempted, s.payload, stage, acknowledged));
      && (r.Ok? <==> (stage == Applied ==> acknowledged)) && (r.Err? ==> r.error == Scope && n == w.node)
      && (r.Ok? ==>
        n.applied == if stage == Applied && s.attempted > w.node.applied then s.attempted else w.node.applied)
  {
    RunKeepsInv(events);
    assert SessionOk(After(events).node, After(events).sessions[id]);
  }

  /** A published payload is what the current session is handed next, under the
      revision that was returned for it. */
  lemma PublishedIsDelivered(n: Node, payload: nat)
    requires NodeOk(n) && n.generation > 0 && Publish(n, payload).1.Ok?
    ensures var revision := Publish(n, payload).1.value;
      revision > 0 && Delivery(Publish(n, payload).0, n.generation).1 == Ok(Some(Delivered(revision, payload)))
  {
  }

  /** The service only ever moves on to a newer session. */
  lemma RegistrationMovesUp(w: World, id: nat)
    requires Inv(w) && w.registered.Some? && w.registered.value in w.sessions && id != w.registered.value
    ensures var v := Next(w, Register(id));
      v.registered != w.registered ==>
        v.registered == Some(id) && id in w.sessions
        && w.sessions[id].generation > w.sessions[w.registered.value].generation
  {
  }
}
