/** The byte ledger: budgets, the grants issued against them, the meters that
    consume grants, the usage cursor of every node and the totals of every term. */
module Ledger {
  import opened Results
  import opened MapSums

  datatype Budget = Budget(limit: int, unlimited: bool, used: int, reserved: int)

  /** `budgets` are the budgets the grant is linked to, fixed when it is created. */
  datatype Grant = Grant(client: Id, term: Id, node: Id, installation: Id, runtime: string, unlimited: bool,
                         issued: int, consumed: int, revision: int, placement: Option<Id>, budgets: set<Id>)

  /** A managed term: its client and the budget that is its own. */
  datatype Term = Term(client: Id, budget: Id)

  type MeterKey = (Id, string, Id)

  datatype Meter = Meter(grant: Id, uploaded: int, downloaded: int)

  /** What a term's or a batch's traffic adds up to. */
  datatype Traffic = Traffic(uploaded: int, downloaded: int)

  datatype Checkpoint = Checkpoint(grant: Id, client: Id, term: Id, meter: string, incarnation: Id, observed: int,
    uploaded: nat, downloaded: nat)

  datatype Batch = Batch(node: Id, installation: Id, sequence: int, checkpoints: seq<Checkpoint>)

  /** The last accepted batch of a node; sequence 0 before any. */
  datatype Cursor = Cursor(sequence: int, last: Option<Batch>)

  datatype ReserveRequest = ReserveRequest(operation: Id, grant: Id, node: Id, installation: Id, runtime: string,
    client: Id, term: Id,
                                           budgets: seq<Id>, bytes: int, unlimited: bool)

  datatype CreditRequest = CreditRequest(operation: Id, term: Id, parents: seq<Id>, limits: map<Id, int>, bytes: int,
    ceiling: int, partial: bool)

  datatype Payload = Reservation(reserve: ReserveRequest) | Credit(credit: CreditRequest)

  /** Requests are hashed with their budget lists sorted: their order does not matter. */
  predicate SamePayload(a: Payload, b: Payload)
  {
    match (a, b)
    case (Reservation(x), Reservation(y)) => x.(budgets := y.budgets) == y && multiset(x.budgets) == multiset(y.budgets)
    case (Credit(x), Credit(y)) => x.(parents := y.parents) == y && multiset(x.parents) == multiset(y.parents)
    case _ => false
  }

  datatype Operation = Operation(payload: Payload, result: Grant)

  /** `opening` remembers what each budget was created with; `placements` holds
      the current grant of a placement and the term it was issued for. */
  datatype State = State(
    budgets: map<Id, Budget>,
    opening: map<Id, int>,
    terms: map<Id, Term>,
    usage: map<Id, Traffic>,
    grants: map<Id, Grant>,
    meters: map<MeterKey, Meter>,
    cursors: map<(Id, Id), Cursor>,
    placements: map<Id, (Id, Id)>,
    operations: map<Id, Operation>)

  const EMPTY := State(map[], map[], map[], map[], map[], map[], map[], map[], map[])

  predicate Exceeds(a: int, b: int)
  {
    a < 0 || b < 0 || b > MAX_INT64 - a
  }

  // ----- creating budgets and terms -----

  predicate Sane(limit: int, unlimited: bool, opening: int)
  {
    0 <= limit <= MAX_INT64 && 0 <= opening <= MAX_INT64 && (unlimited || opening <= limit)
  }

  function CreateBudget(s: State, id: Id, limit: int, unlimited: bool, opening: int): Result<State>
  {
    if !(ValidId(id) && id !in s.budgets && Sane(limit, unlimited, opening)) then Err(Error.Budget) else
    Ok(s.(budgets := s.budgets[id := Budget.Budget(limit, unlimited, opening, 0)], opening := s.opening[id := opening]))
  }

  /** A transition creates the term, its own budget and its totals together. */
  function OpenTerm(s: State, id: Id, client: Id, budget: Id, quota: int, unlimited: bool, opening: int): Result<State>
  {
    if !(ValidId(id) && ValidId(client) && id !in s.terms) then Err(Invalid) else
    var s1 :- CreateBudget(s, budget, quota, unlimited, opening);
    Ok(s1.(terms := s1.terms[id := Term(client, budget)], usage := s1.usage[id := Traffic(0, 0)]))
  }

  // ----- reservations -----

  predicate Distinct(ids: seq<Id>)
  {
    forall i, j :: 0 <= i < j < |ids| ==> ids[i] != ids[j]
  }

  function Members(ids: seq<Id>): set<Id>
  {
    set id | id in ids
  }

  predicate ValidReserve(in': ReserveRequest)
  {
    && ValidId(in'.operation) && ValidId(in'.grant) && ValidId(in'.node) && ValidId(in'.installation)
      && ValidId(in'.client) && ValidId(in'.term)
    && ValidRuntime(in'.runtime) && 0 < |in'.budgets| <= 64 && (forall id :: id in in'.budgets ==> ValidId(id))
      && Distinct(in'.budgets)
    && (if in'.unlimited then in'.bytes == 0 else 0 < in'.bytes <= MAX_INT64)
  }

  /** A managed term's reservations must draw on the term's own budget. */
  predicate OwnBudgetNamed(s: State, in': ReserveRequest)
  {
    in'.term in s.terms && s.terms[in'.term].client == in'.client ==> s.terms[in'.term].budget in in'.budgets
  }

  predicate RoomFor(b: Budget, bytes: int, unlimited: bool)
  {
    b.unlimited || (!unlimited && b.used <= b.limit && b.reserved <= b.limit - b.used
      && bytes <= b.limit - b.used - b.reserved)
  }

  function Reserved(b: Budget, bytes: int): Budget
  {
    if b.unlimited then b else b.(reserved := b.reserved + bytes)
  }

  function ReserveIn(budgets: map<Id, Budget>, ids: set<Id>, bytes: int): map<Id, Budget>
  {
    map id | id in budgets :: if id in ids then Reserved(budgets[id], bytes) else budgets[id]
  }

  /** The grant as the reservation finds it, before the bytes are issued. */
  function GrantFor(s: State, in': ReserveRequest, placement: Option<Id>): Result<Grant>
  {
    if in'.grant !in s.grants then
      Ok(Grant(in'.client, in'.term, in'.node, in'.installation, in'.runtime, in'.unlimited, 0, 0, 1, placement,
        Members(in'.budgets)))
    else
      var g := s.grants[in'.grant];
      :- Need(g.node == in'.node && g.installation == in'.installation && g.client == in'.client && g.term == in'.term
        && g.runtime == in'.runtime
              && g.unlimited == in'.unlimited && g.revision != MAX_INT64, Scope);
      :- Need(placement.None? || g.placement == placement, Scope);
      :- Need(g.budgets == Members(in'.budgets), Scope);
      Ok(g.(revision := g.revision + 1))
  }

  /** The grant and the budget rows a new reservation writes: the grant found or
      created, every budget with room, the bytes issued. */
  function PlanReserve(s: State, in': ReserveRequest, placement: Option<Id>): Result<(Grant, map<Id, Budget>)>
  {
    if !OwnBudgetNamed(s, in') then Err(Scope) else
    :- Need(forall id :: id in in'.budgets ==> id in s.budgets, Scope);
    var g :- GrantFor(s, in', placement);
    :- Need(!Exceeds(g.issued, in'.bytes), Error.Budget);
    :- Need(forall id :: id in in'.budgets ==> RoomFor(s.budgets[id], in'.bytes, in'.unlimited), Error.Budget);
    Ok((g.(issued := g.issued + in'.bytes), ReserveIn(s.budgets, Members(in'.budgets), in'.bytes)))
  }

  function ApplyReserve(s: State, in': ReserveRequest, placement: Option<Id>): Result<(State, Grant)>
  {
    var (result, budgets) :- PlanReserve(s, in', placement);
    Ok((s.(budgets := budgets, grants := s.grants[in'.grant := result],
      operations := s.operations[in'.operation := Operation(Reservation(in'), result)]), result))
  }

  /** `fence` is whether the store takes operations at all, `guard` what the node
      and authority checks outside the ledger answer. */
  function Reserve(s: State, in': ReserveRequest, placement: Option<Id>, fence: Check,
      guard: Check): Result<(State, Grant)>
  {
    if !ValidReserve(in') then Err(Invalid) else
    :- fence;
    if in'.operation in s.operations then
      var op := s.operations[in'.operation];
      if SamePayload(op.payload, Reservation(in')) then Ok((s, op.result)) else Err(Conflict)
    else
      :- guard;
      ApplyReserve(s, in', placement)
  }

  // ----- ingesting usage -----

  function KeyOf(c: Checkpoint): MeterKey
  {
    (c.grant, c.meter, c.incarnation)
  }

  predicate ValidCheckpoint(c: Checkpoint)
  {
    && ValidId(c.grant) && ValidId(c.client) && ValidId(c.term) && ValidId(c.incarnation) && 0 < |c.meter| <= 128
      && c.observed > 0
    && c.uploaded <= MAX_INT64 && c.downloaded <= MAX_INT64
  }

  predicate ValidBatch(b: Batch)
  {
    && ValidId(b.node) && ValidId(b.installation) && 0 < b.sequence <= MAX_INT64 && 0 < |b.checkpoints| <= 4096
    && (forall i :: 0 <= i < |b.checkpoints| ==> ValidCheckpoint(b.checkpoints[i]))
    && forall i, j :: 0 <= i < j < |b.checkpoints| ==> KeyOf(b.checkpoints[i]) != KeyOf(b.checkpoints[j])
  }

  /** The rows a batch is working on; `deltas` holds what it adds to each client and term. */
  datatype Work = Work(budgets: map<Id, Budget>, grants: map<Id, Grant>, meters: map<MeterKey, Meter>,
    deltas: map<(Id, Id), Traffic>)

  function MeterAt(meters: map<MeterKey, Meter>, key: MeterKey): Meter
  {
    if key in meters then meters[key] else Meter(key.0, 0, 0)
  }

  function TrafficAt(deltas: map<(Id, Id), Traffic>, key: (Id, Id)): Traffic
  {
    if key in deltas then deltas[key] else Traffic(0, 0)
  }

  predicate Takes(b: Budget, delta: int)
  {
    !Exceeds(b.used, delta) && (b.unlimited || delta <= b.reserved)
  }

  function Spent(b: Budget, delta: int): Budget
  {
    if b.unlimited then b.(used := b.used + delta) else b.(used := b.used + delta, reserved := b.reserved - delta)
  }

  function SpendIn(budgets: map<Id, Budget>, ids: set<Id>, delta: int): map<Id, Budget>
  {
    map id | id in budgets :: if id in ids then Spent(budgets[id], delta) else budgets[id]
  }

  predicate GrantTakes(g: Grant, delta: int)
  {
    !Exceeds(g.consumed, delta) && (g.unlimited || delta <= g.issued - g.consumed)
  }

  function AddTraffic(t: Traffic, up: int, down: int): Traffic
  {
    Traffic(t.uploaded + up, t.downloaded + down)
  }

  /** One checkpoint: the growth of its meter is spent from its grant and from
      every budget the grant is linked to. */
  function ApplyCheckpoint(w: Work, c: Checkpoint): Result<Work>
    requires c.grant in w.grants && w.grants[c.grant].budgets <= w.budgets.Keys
  {
    var g := w.grants[c.grant];
    :- Need(g.client == c.client && g.term == c.term && g.runtime == c.meter, Scope);
    var meter := MeterAt(w.meters, KeyOf(c));
    :- Need(c.uploaded >= meter.uploaded && c.downloaded >= meter.downloaded, Invalid);
    var up, down := c.uploaded - meter.uploaded, c.downloaded - meter.downloaded;
    :- Need(!Exceeds(up, down), Error.Budget);
    var owner := (g.client, g.term);
    var total := TrafficAt(w.deltas, owner);
    :- Need(up + down == 0 || (!Exceeds(total.uploaded, up) && !Exceeds(total.downloaded, down)), Error.Budget);
    :- Need(GrantTakes(g, up + down), Error.Budget);
    :- Need(forall id :: id in g.budgets ==> Takes(w.budgets[id], up + down), Error.Budget);
    Ok(Work(SpendIn(w.budgets, g.budgets, up + down), w.grants[c.grant := g.(consumed := g.consumed + up + down)],
            w.meters[KeyOf(c) := Meter(c.grant, c.uploaded, c.downloaded)],
            if up + down == 0 then w.deltas else w.deltas[owner := AddTraffic(total, up, down)]))
  }

  /** Every checkpoint names a known grant of this node, linked to known budgets. */
  predicate InScope(budgets: map<Id, Budget>, grants: map<Id, Grant>, node: Id, installation: Id, cs: seq<Checkpoint>)
  {
    forall i :: 0 <= i < |cs| ==> KnownHere(budgets, grants, node, installation, cs[i].grant)
  }

  predicate KnownHere(budgets: map<Id, Budget>, grants: map<Id, Grant>, node: Id, installation: Id, grant: Id)
  {
    && grant in grants && grants[grant].node == node && grants[grant].installation == installation
    && grants[grant].budgets != {} && grants[grant].budgets <= budgets.Keys
  }

  /** Grants keep their scope while a batch spends from them. */
  predicate SameScope(a: map<Id, Grant>, b: map<Id, Grant>)
  {
    a.Keys == b.Keys && forall id :: id in a ==> b[id] == a[id].(consumed := b[id].consumed)
  }

  function ApplyCheckpoints(w: Work, node: Id, installation: Id, cs: seq<Checkpoint>): (r: Result<Work>)
    requires InScope(w.budgets, w.grants, node, installation, cs)
    ensures r.Ok? ==> SameScope(w.grants, r.value.grants) && r.value.budgets.Keys == w.budgets.Keys
  {
    if cs == [] then Ok(w)
    else
      var init := cs[..|cs| - 1];
      var v :- ApplyCheckpoints(w, node, installation, init);
      assert KnownHere(w.budgets, w.grants, node, installation, cs[|cs| - 1].grant);
      ApplyCheckpoint(v, cs[|cs| - 1])
  }

  function UsageAt(usage: map<Id, Traffic>, t: Id): Traffic
  {
    if t in usage then usage[t] else Traffic(0, 0)
  }

  /** A term row the batch has traffic for. */
  predicate Counted(terms: map<Id, Term>, deltas: map<(Id, Id), Traffic>, t: Id)
  {
    t in terms && (terms[t].client, t) in deltas
  }

  predicate TotalFits(terms: map<Id, Term>, usage: map<Id, Traffic>, deltas: map<(Id, Id), Traffic>, t: Id)
    requires Counted(terms, deltas, t)
  {
    var d := deltas[(terms[t].client, t)];
    !Exceeds(UsageAt(usage, t).uploaded, d.uploaded) && !Exceeds(UsageAt(usage, t).downloaded, d.downloaded)
  }

  function TotalAfter(terms: map<Id, Term>, usage: map<Id, Traffic>, deltas: map<(Id, Id), Traffic>, t: Id): Traffic
  {
    if Counted(terms, deltas, t) then
      var d := deltas[(terms[t].client, t)]; AddTraffic(UsageAt(usage, t), d.uploaded, d.downloaded)
    else UsageAt(usage, t)
  }

  function TotalsAfter(terms: map<Id, Term>, usage: map<Id, Traffic>, deltas: map<(Id, Id), Traffic>): map<Id, Traffic>
  {
    map t | t in usage.Keys + terms.Keys
      && (t in usage || Counted(terms, deltas, t)) :: TotalAfter(terms, usage, deltas, t)
  }

  /** The batch's totals are added to the terms that have a row; a term of
      another client, or two clients under one term, refuses the batch. */
  function RecordTermUsage(terms: map<Id, Term>, usage: map<Id, Traffic>, deltas: map<(Id, Id),
      Traffic>): Result<map<Id, Traffic>>
  {
    if !(forall a, b :: a in deltas && b in deltas && a.1 == b.1 ==> a.0 == b.0) then Err(Scope) else
    :- Need(forall k :: k in deltas && k.1 in terms ==> terms[k.1].client == k.0, Scope);
    :- Need(forall t :: t in terms && Counted(terms, deltas, t) ==> TotalFits(terms, usage, deltas, t), Error.Budget);
    Ok(TotalsAfter(terms, usage, deltas))
  }

  function CursorAt(s: State, node: Id, installation: Id): Cursor
  {
    if (node, installation) in s.cursors then s.cursors[(node, installation)] else Cursor(0, None)
  }

  /** The rows and term totals the next batch of a node leaves. */
  function PlanBatch(s: State, b: Batch): Result<(Work, map<Id, Traffic>)>
  {
    if !InScope(s.budgets, s.grants, b.node, b.installation, b.checkpoints) then Err(Scope) else
    var w :- ApplyCheckpoints(Work(s.budgets, s.grants, s.meters, map[]), b.node, b.installation, b.checkpoints);
    var usage :- RecordTermUsage(s.terms, s.usage, w.deltas);
    Ok((w, usage))
  }

  /** The next batch of a node: every checkpoint, the term totals, the cursor. */
  function ApplyBatch(s: State, b: Batch): Result<State>
  {
    var (w, usage) :- PlanBatch(s, b);
    Ok(s.(budgets := w.budgets, grants := w.grants, meters := w.meters, usage := usage,
          cursors := s.cursors[(b.node, b.installation) := Cursor(b.sequence, Some(b))]))
  }

  /** A batch is applied when it is the next one, acknowledged again when it is
      not newer than the last one, and refused otherwise. */
  function Ingest(s: State, b: Batch, guard: Check): Result<(State, int)>
  {
    if !ValidBatch(b) then Err(Invalid) else
    :- guard;
    var cursor := CursorAt(s, b.node, b.installation);
    if b.sequence <= cursor.sequence then
      if b.sequence == cursor.sequence && cursor.last != Some(b) then Err(Conflict) else Ok((s, cursor.sequence))
    else
      :- Need(cursor.sequence != MAX_INT64 && b.sequence == cursor.sequence + 1, Sequence);
      var t :- ApplyBatch(s, b);
      Ok((t, b.sequence))
  }

  // ----- client credit -----

  predicate ValidCredit(r: CreditRequest)
  {
    && ValidId(r.operation) && ValidId(r.term) && 0 < r.bytes <= MAX_INT64 && 0 <= r.ceiling <= MAX_INT64
      && |r.parents| <= 63
    && (forall id :: id in r.parents ==> ValidId(id)) && Distinct(r.parents)
    && r.limits.Keys == Members(r.parents) && forall id :: id in r.limits ==> 0 <= r.limits[id] <= MAX_INT64
  }

  predicate ParentHolds(b: Budget, limit: int)
  {
    !b.unlimited && b.used <= limit && b.reserved <= limit - b.used
  }

  function Relimited(budgets: map<Id, Budget>, limits: map<Id, int>): map<Id, Budget>
  {
    map id | id in budgets :: if id in limits then budgets[id].(limit := limits[id]) else budgets[id]
  }

  predicate ParentsHold(budgets: map<Id, Budget>, parents: seq<Id>, limits: map<Id, int>)
    requires forall id :: id in parents ==> id in budgets && id in limits
  {
    forall id :: id in parents ==> ParentHolds(budgets[id], limits[id])
  }

  function Room(b: Budget): int
  {
    b.limit - b.used - b.reserved
  }

  /** The least of an amount and the room of every limited budget. */
  function LeastRoom(budgets: map<Id, Budget>, ids: seq<Id>, amount: int): int
    requires forall id :: id in ids ==> id in budgets
  {
    if ids == [] then amount
    else
      var rest := LeastRoom(budgets, ids[..|ids| - 1], amount);
      var b := budgets[ids[|ids| - 1]];
      if b.unlimited || rest <= Room(b) then rest else Room(b)
  }

  function IssuedFor(client: Id, term: Id): Grant -> int
  {
    (g: Grant) => if g.client == client && g.term == term then g.issued else 0
  }

  function ConsumedFor(client: Id, term: Id): Grant -> int
  {
    (g: Grant) => if g.client == client && g.term == term then g.consumed else 0
  }

  predicate AnyUnlimited(grants: map<Id, Grant>, client: Id, term: Id)
  {
    exists id :: id in grants && grants[id].client == client && grants[id].term == term && grants[id].unlimited
  }

  /** What already counts against an authority ceiling: what the term's budget
      used and reserved or, where it is unlimited, what the term's grants were issued. */
  ghost function CeilingUse(own: Budget, grants: map<Id, Grant>, client: Id, term: Id): Result<(int, int)>
  {
    if !own.unlimited then Ok((own.used, own.reserved))
    else
      var issued, consumed := MapSum(grants, IssuedFor(client, term)), MapSum(grants, ConsumedFor(client, term));
      :- Need(issued <= MAX_INT64 && consumed <= MAX_INT64, Error.Budget);
      :- Need(!AnyUnlimited(grants, client, term) && consumed <= own.used && consumed <= issued, Error.Budget);
      Ok((own.used - consumed, issued))
  }

  /** The amount a credit request is given: all of it, or as much as every budget
      and the ceiling admit when a part will do. */
  ghost function CreditAmount(budgets: map<Id, Budget>, grants: map<Id, Grant>, ids: seq<Id>, own: Id, client: Id,
      r: CreditRequest): Result<int>
    requires own in budgets && forall id :: id in ids ==> id in budgets
  {
    if r.partial && !(forall id :: id in ids && !budgets[id].unlimited ==>
      budgets[id].used <= budgets[id].limit && budgets[id].reserved <= budgets[id].limit - budgets[id].used)
      then Err(Error.Budget) else
    var amount := if r.partial then LeastRoom(budgets, ids, r.bytes) else r.bytes;
    if r.ceiling == 0 then
      :- Need(amount > 0, Error.Budget);
      Ok(amount)
    else
      var (used, reserved) :- CeilingUse(budgets[own], grants, client, r.term);
      :- Need(used <= r.ceiling && reserved <= r.ceiling - used, Error.Budget);
      var remaining := r.ceiling - used - reserved;
      :- Need(r.partial || amount <= remaining, Error.Budget);
      var given := if amount <= remaining then amount else remaining;
      :- Need(given > 0, Error.Budget);
      Ok(given)
  }

  const NO_GRANT := Grant(0, 0, 0, 0, "", false, 0, 0, 0, None, {})

  /** Where a credit goes: the placement and what runs there, the ids to use for a
      new grant and for the ledger's own operation. */
  datatype Target = Target(placement: Id, node: Id, installation: Id, runtime: string, newGrant: Id,
    ledgerOperation: Id)

  function CurrentGrant(s: State, t: Target, term: Id): Id
  {
    if t.placement in s.placements && s.placements[t.placement].1 == term then s.placements[t.placement].0
      else t.newGrant
  }

  /** The parents' new limits and the amount a credit is given. */
  ghost function PlanCredit(s: State, r: CreditRequest): Result<(map<Id, Budget>, int)>
    requires r.term in s.terms && ValidCredit(r)
  {
    var term := s.terms[r.term];
    var ids := [term.budget] + r.parents;
    :- Need(term.budget !in r.parents && forall id :: id in ids ==> id in s.budgets, Scope);
    assert forall id :: id in r.parents ==> id in ids && id in Members(r.parents);
    :- Need(ParentsHold(s.budgets, r.parents, r.limits), Error.Budget);
    var budgets := Relimited(s.budgets, r.limits);
    var amount :- CreditAmount(budgets, s.grants, ids, term.budget, term.client, r);
    Ok((budgets, amount))
  }

  /** The store a credit draws from: new limits, and its operation claimed. */
  function Claimed(s: State, r: CreditRequest, budgets: map<Id, Budget>): State
  {
    s.(budgets := budgets, operations := s.operations[r.operation := Operation(Credit(r), NO_GRANT)])
  }

  /** The reservation a credit makes: the amount, from the term's own budget and its parents. */
  function Drawn(s: State, r: CreditRequest, t: Target, amount: int): ReserveRequest
    requires r.term in s.terms
  {
    ReserveRequest(t.ledgerOperation, CurrentGrant(s, t, r.term), t.node, t.installation, t.runtime,
      s.terms[r.term].client, r.term,
                   [s.terms[r.term].budget] + r.parents, amount, false)
  }

  /** A new credit: planned, reserved, and noted at its placement. */
  ghost function ApplyCredit(s: State, r: CreditRequest, t: Target, inner: Check): Result<(State, Grant)>
    requires r.term in s.terms && ValidCredit(r)
  {
    var (budgets, amount) :- PlanCredit(s, r);
    var in' := Drawn(s, r, t, amount);
    var (s1, grant) :- Reserve(Claimed(s, r, budgets), in', Some(t.placement), Pass, inner);
    Ok((s1.(placements := s1.placements[t.placement := (in'.grant, r.term)],
      operations := s1.operations[r.operation := Operation(Credit(r), grant)]), grant))
  }

  /** `guard` is what the placement, client and authority checks outside the ledger
      answer, `inner` what the reservation's own ones do. */
  ghost function ReserveClientCredit(s: State, r: CreditRequest, t: Target, guard: Check,
      inner: Check): Result<(State, Grant)>
  {
    if !ValidCredit(r) then Err(Invalid) else
    :- guard;
    :- Need(r.term in s.terms, Scope);
    if r.operation in s.operations then
      var op := s.operations[r.operation];
      if SamePayload(op.payload, Credit(r)) then Ok((s, op.result)) else Err(Conflict)
    else ApplyCredit(s, r, t, inner)
  }
}
