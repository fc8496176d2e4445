/** The ledger as the source writes it: rows updated in loops inside a
    transaction. Each method does exactly what the function of the same name in
    `Ledger` says, or fails and changes nothing. */
module LedgerStore {
  import opened Results
  import opened MapSums
  import opened Ledger
  import Effects = LedgerEffects
  import Batches = LedgerBatches

  lemma MembersOneMore(ids: seq<Id>, i: int)
    requires 0 <= i < |ids|
    ensures Members(ids[..i + 1]) == Members(ids[..i]) + {ids[i]}
  {
    assert ids[..i + 1] == ids[..i] + [ids[i]];
  }

  /** The room checks and the reservation of every budget in the list; the rows
      are returned, so a refusal has written nothing. */
  method ReserveBudgets(budgets: map<Id, Budget>, ids: seq<Id>, bytes: int, unlimited: bool)
      returns (ok: bool, rows: map<Id, Budget>)
    requires Distinct(ids) && forall id :: id in ids ==> id in budgets
    ensures ok <==> forall id :: id in ids ==> RoomFor(budgets[id], bytes, unlimited)
    ensures ok ==> rows == ReserveIn(budgets, Members(ids), bytes)
  {
    rows := budgets;
    for i := 0 to |ids|
      invariant forall k :: 0 <= k < i ==> RoomFor(budgets[ids[k]], bytes, unlimited)
      invariant rows == ReserveIn(budgets, Members(ids[..i]), bytes)
    {
      MembersOneMore(ids, i);
      assert ids[i] in ids && ids[i] !in Members(ids[..i]);
      var b := rows[ids[i]];
      if unlimited && !b.unlimited {
        return false, rows;
      }
      if !b.unlimited {
        if b.used > b.limit || b.reserved > b.limit - b.used || bytes > b.limit - b.used - b.reserved {
          return false, rows;
        }
        rows := rows[ids[i] := b.(reserved := b.reserved + bytes)];
      }
    }
    assert ids[..|ids|] == ids;
    return true, rows;
  }

  /** A delta spent from every budget of a grant. */
  method SpendBudgets(budgets: map<Id, Budget>, ids: set<Id>, delta: int) returns (ok: bool, rows: map<Id, Budget>)
    requires ids <= budgets.Keys
    ensures ok <==> forall id :: id in ids ==> Takes(budgets[id], delta)
    ensures ok ==> rows == SpendIn(budgets, ids, delta)
  {
    rows := budgets;
    var todo := ids;
    while todo != {}
      invariant todo <= ids && forall id :: id in ids - todo ==> Takes(budgets[id], delta)
      invariant rows == SpendIn(budgets, ids - todo, delta)
    {
      var id :| id in todo;
      var b := rows[id];
      if Exceeds(b.used, delta) || (!b.unlimited && delta > b.reserved) {
        return false, rows;
      }
      b := b.(used := b.used + delta);
      if !b.unlimited {
        b := b.(reserved := b.reserved - delta);
      }
      rows, todo := rows[id := b], todo - {id};
    }
    assert ids - todo == ids;
    return true, rows;
  }

  /** One checkpoint of a batch, on the rows the batch works on. */
  method AccountCheckpoint(w: Work, c: Checkpoint) returns (r: Result<Work>)
    requires c.grant in w.grants && w.grants[c.grant].budgets <= w.budgets.Keys
    ensures r == ApplyCheckpoint(w, c)
  {
    var g := w.grants[c.grant];
    if g.client != c.client || g.term != c.term || g.runtime != c.meter {
      return Err(Scope);
    }
    var key := (c.grant, c.meter, c.incarnation);
    var meter := if key in w.meters then w.meters[key] else Meter(c.grant, 0, 0);
    if c.uploaded < meter.uploaded || c.downloaded < meter.downloaded {
      return Err(Invalid);
    }
    var up, down := c.uploaded - meter.uploaded, c.downloaded - meter.downloaded;
    if Exceeds(up, down) {
      return Err(Error.Budget);
    }
    var delta, deltas := up + down, w.deltas;
    if delta > 0 {
      var owner := (g.client, g.term);
      var total := if owner in deltas then deltas[owner] else Traffic(0, 0);
      if Exceeds(total.uploaded, up) || Exceeds(total.downloaded, down) {
        return Err(Error.Budget);
      }
      deltas := deltas[owner := Traffic(total.uploaded + up, total.downloaded + down)];
    }
    if Exceeds(g.consumed, delta) || (!g.unlimited && delta > g.issued - g.consumed) {
      return Err(Error.Budget);
    }
    var ok, budgets := SpendBudgets(w.budgets, g.budgets, delta);
    if !ok {
      return Err(Error.Budget);
    }
    var grants := w.grants[c.grant := g.(consumed := g.consumed + delta)];
    return Ok(Work(budgets, grants, w.meters[key := Meter(c.grant, c.uploaded, c.downloaded)], deltas));
  }

  /** Every checkpoint in turn; the first that is refused refuses the batch. */
  method AccountCheckpoints(w: Work, node: Id, installation: Id, cs: seq<Checkpoint>) returns (r: Result<Work>)
    requires InScope(w.budgets, w.grants, node, installation, cs)
    ensures r == ApplyCheckpoints(w, node, installation, cs)
  {
    var work := w;
    for i := 0 to |cs|
      invariant InScope(w.budgets, w.grants, node, installation, cs[..i])
        && ApplyCheckpoints(w, node, installation, cs[..i]) == Ok(work)
    {
      assert cs[..i + 1][..|cs[..i + 1]| - 1] == cs[..i];
      assert KnownHere(w.budgets, w.grants, node, installation, cs[i].grant);
      var next := AccountCheckpoint(work, cs[i]);
      if next.Err? {
        RefusedStaysRefused(w, node, installation, cs, i + 1);
        return next;
      }
      work := next.value;
    }
    assert cs[..|cs|] == cs;
    return Ok(work);
  }

  /** A batch refused at one checkpoint is refused whatever follows. */
  lemma {:induction false} RefusedStaysRefused(w: Work, node: Id, installation: Id, cs: seq<Checkpoint>, n: nat)
    requires InScope(w.budgets, w.grants, node, installation, cs) && n <= |cs|
    requires InScope(w.budgets, w.grants, node, installation, cs[..n])
      && ApplyCheckpoints(w, node, installation, cs[..n]).Err?
    ensures ApplyCheckpoints(w, node, installation, cs) == ApplyCheckpoints(w, node, installation, cs[..n])
    decreases |cs|
  {
    if n == |cs| {
      assert cs[..n] == cs;
    } else {
      assert cs[..|cs| - 1][..n] == cs[..n];
      RefusedStaysRefused(w, node, installation, cs[..|cs| - 1], n);
    }
  }

  /** Who owns each term of a batch's totals; two owners of one term refuse it. */
  method OwnersOf(deltas: map<(Id, Id), Traffic>) returns (ok: bool, owners: map<Id, Id>)
    ensures ok <==> forall a, b :: a in deltas && b in deltas && a.1 == b.1 ==> a.0 == b.0
    ensures ok ==> (forall k :: k in deltas ==> k.1 in owners && owners[k.1] == k.0) && forall t :: t in owners ==>
      (owners[t], t) in deltas
  {
    owners := map[];
    var todo := deltas.Keys;
    while todo != {}
      invariant todo <= deltas.Keys
      invariant forall k :: k in deltas && k !in todo ==> k.1 in owners && owners[k.1] == k.0
      invariant forall t :: t in owners ==> (owners[t], t) in deltas && (owners[t], t) !in todo
    {
      var k :| k in todo;
      if k.1 in owners && owners[k.1] != k.0 {
        assert (owners[k.1], k.1) in deltas && (owners[k.1], k.1).1 == k.1;
        return false, owners;
      }
      owners, todo := owners[k.1 := k.0], todo - {k};
    }
    return true, owners;
  }

  /** The owners checked against the term rows, then the totals added row by row. */
  method AddTermUsage(terms: map<Id, Term>, usage: map<Id, Traffic>, deltas: map<(Id, Id), Traffic>)
      returns (r: Result<map<Id, Traffic>>)
    ensures r == RecordTermUsage(terms, usage, deltas)
  {
    var ok, owners := OwnersOf(deltas);
    if !ok {
      return Err(Scope);
    }
    var todo := owners.Keys;
    while todo != {}
      invariant todo <= owners.Keys && forall t :: t in owners && t !in todo && t in terms ==>
        terms[t].client == owners[t]
    {
      var t :| t in todo;
      if t in terms && owners[t] != terms[t].client {
        assert (owners[t], t) in deltas;
        return Err(Scope);
      }
      todo := todo - {t};
    }
    forall k | k in deltas && k.1 in terms ensures terms[k.1].client == k.0 {
      assert k.1 in owners;
    }
    var fit, rows := AddTotals(terms, usage, deltas, owners);
    if !fit {
      return Err(Error.Budget);
    }
    return Ok(rows);
  }

  /** Between the rows of the totals: those done fit and are added, the others as they were. */
  ghost predicate Adding(terms: map<Id, Term>, usage: map<Id, Traffic>, deltas: map<(Id, Id), Traffic>, rows: map<Id,
      Traffic>, todo: set<Id>)
  {
    && (forall t :: t in terms && t !in todo && Counted(terms, deltas, t) ==> TotalFits(terms, usage, deltas, t))
    && (forall t :: t in rows <==> t in usage || (t !in todo && Counted(terms, deltas, t)))
    && forall t :: t in rows ==> rows[t] == if t in todo then usage[t] else TotalAfter(terms, usage, deltas, t)
  }

  lemma AddingNext(terms: map<Id, Term>, usage: map<Id, Traffic>, deltas: map<(Id, Id), Traffic>, rows: map<Id,
      Traffic>, todo: set<Id>, t: Id)
    requires Adding(terms, usage, deltas, rows, todo) && t in todo
    ensures Counted(terms, deltas, t) && TotalFits(terms, usage, deltas, t) ==>
      Adding(terms, usage, deltas, rows[t := TotalAfter(terms, usage, deltas, t)], todo - {t})
    ensures t !in terms ==> Adding(terms, usage, deltas, rows, todo - {t})
  {
  }

  lemma AddingDone(terms: map<Id, Term>, usage: map<Id, Traffic>, deltas: map<(Id, Id), Traffic>, rows: map<Id,
      Traffic>)
    requires Adding(terms, usage, deltas, rows, {})
    ensures rows == TotalsAfter(terms, usage, deltas)
  {
  }

  method AddTotals(terms: map<Id, Term>, usage: map<Id, Traffic>, deltas: map<(Id, Id), Traffic>, owners: map<Id, Id>)
      returns (ok: bool, rows: map<Id, Traffic>)
    requires (forall k :: k in deltas ==> k.1 in owners && owners[k.1] == k.0) && forall t :: t in owners ==>
      (owners[t], t) in deltas
    requires forall t :: t in owners && t in terms ==> terms[t].client == owners[t]
    ensures ok <==> forall t :: t in terms && Counted(terms, deltas, t) ==> TotalFits(terms, usage, deltas, t)
    ensures ok ==> rows == TotalsAfter(terms, usage, deltas)
  {
    rows := usage;
    var todo := owners.Keys;
    forall t | Counted(terms, deltas, t) ensures t in todo {
      assert (terms[t].client, t) in deltas && (terms[t].client, t).1 == t;
    }
    while todo != {}
      invariant todo <= owners.Keys && Adding(terms, usage, deltas, rows, todo)
    {
      var t :| t in todo;
      AddingNext(terms, usage, deltas, rows, todo, t);
      if t in terms {
        var d := deltas[(terms[t].client, t)];
        var was := UsageAt(usage, t);
        if Exceeds(was.uploaded, d.uploaded) || Exceeds(was.downloaded, d.downloaded) {
          assert Counted(terms, deltas, t) && !TotalFits(terms, usage, deltas, t);
          return false, rows;
        }
        rows := rows[t := Traffic(was.uploaded + d.uploaded, was.downloaded + d.downloaded)];
      }
      todo := todo - {t};
    }
    AddingDone(terms, usage, deltas, rows);
    return true, rows;
  }

  lemma OneRowMore(grants: map<Id, Grant>, todo: set<Id>, id: Id, f: Grant -> int)
    requires id in todo && id in grants
    ensures MapSum(grants - (todo - {id}), f) == MapSum(grants - todo, f) + f(grants[id])
  {
    assert grants - (todo - {id}) == (grants - todo)[id := grants[id]];
    MapSumWrite(grants - todo, id, grants[id], f);
  }

  /** What a term's grants were issued and consumed, and whether one is unlimited. */
  method TermTotals(grants: map<Id, Grant>, client: Id, term: Id) returns (issued: int, consumed: int, unlimited: bool)
    ensures issued == MapSum(grants, IssuedFor(client, term)) && consumed == MapSum(grants, ConsumedFor(client, term))
    ensures unlimited <==> AnyUnlimited(grants, client, term)
  {
    issued, consumed, unlimited := 0, 0, false;
    var todo := grants.Keys;
    assert grants - todo == map[];
    while todo != {}
      invariant todo <= grants.Keys
      invariant issued == MapSum(grants - todo, IssuedFor(client, term))
      invariant consumed == MapSum(grants - todo, ConsumedFor(client, term))
      invariant unlimited <==>
        exists id ::
          id in grants && id !in todo && grants[id].client == client && grants[id].term == term && grants[id].unlimited
    {
      var id :| id in todo;
      var g := grants[id];
      OneRowMore(grants, todo, id, IssuedFor(client, term));
      OneRowMore(grants, todo, id, ConsumedFor(client, term));
      if g.client == client && g.term == term {
        issued, consumed, unlimited := issued + g.issued, consumed + g.consumed, unlimited || g.unlimited;
      }
      todo := todo - {id};
    }
    assert grants - todo == grants;
  }

  /** The smallest room of the limited budgets, or a refusal where one is out of balance. */
  method SmallestRoom(budgets: map<Id, Budget>, ids: seq<Id>, bytes: int) returns (ok: bool, amount: int)
    requires forall id :: id in ids ==> id in budgets
    ensures ok <==> forall id :: id in ids && !budgets[id].unlimited ==>
      budgets[id].used <= budgets[id].limit && budgets[id].reserved <= budgets[id].limit - budgets[id].used
    ensures ok ==> amount == LeastRoom(budgets, ids, bytes)
  {
    amount := bytes;
    for i := 0 to |ids|
      invariant forall k :: 0 <= k < i && !budgets[ids[k]].unlimited ==>
        budgets[ids[k]].used <= budgets[ids[k]].limit
        && budgets[ids[k]].reserved <= budgets[ids[k]].limit - budgets[ids[k]].used
      invariant amount == LeastRoom(budgets, ids[..i], bytes)
    {
      assert ids[..i + 1][..|ids[..i + 1]| - 1] == ids[..i] && ids[i] in ids;
      var b := budgets[ids[i]];
      if !b.unlimited {
        if b.used > b.limit || b.reserved > b.limit - b.used {
          return false, amount;
        }
        var room := b.limit - b.used - b.reserved;
        amount := if amount <= room then amount else room;
      }
    }
    assert ids[..|ids|] == ids;
    return true, amount;
  }

  /** The amount a credit is given, lowered step by step. */
  method AmountOf(budgets: map<Id, Budget>, grants: map<Id, Grant>, ids: seq<Id>, own: Id, client: Id,
      r: CreditRequest) returns (given: Result<int>)
    requires own in budgets && forall id :: id in ids ==> id in budgets
    ensures given == CreditAmount(budgets, grants, ids, own, client, r)
    ensures 1 <= r.bytes ==> Effects.AmountGiven(budgets, grants, ids, own, client, r, given)
  {
    if 1 <= r.bytes {
      Effects.AmountIsGiven(budgets, grants, ids, own, client, r);
    }
    given := LowerAmount(budgets, grants, ids, own, client, r);
  }

  method LowerAmount(budgets: map<Id, Budget>, grants: map<Id, Grant>, ids: seq<Id>, own: Id, client: Id,
      r: CreditRequest) returns (given: Result<int>)
    requires own in budgets && forall id :: id in ids ==> id in budgets
    ensures given == CreditAmount(budgets, grants, ids, own, client, r)
  {
    var amount := r.bytes;
    if r.partial {
      var ok, least := SmallestRoom(budgets, ids, r.bytes);
      if !ok {
        return Err(Error.Budget);
      }
      amount := least;
    }
    if r.ceiling != 0 {
      var used, reserved := budgets[own].used, budgets[own].reserved;
      if budgets[own].unlimited {
        var issued, consumed, unlimited := TermTotals(grants, client, r.term);
        if issued > MAX_INT64 || consumed > MAX_INT64 || unlimited || consumed > used || consumed > issued {
          return Err(Error.Budget);
        }
        used, reserved := used - consumed, issued;
      }
      if used > r.ceiling || reserved > r.ceiling - used {
        return Err(Error.Budget);
      }
      var remaining := r.ceiling - used - reserved;
      if r.partial {
        amount := if amount <= remaining then amount else remaining;
      } else if amount > remaining {
        return Err(Error.Budget);
      }
    }
    if amount <= 0 {
      return Err(Error.Budget);
    }
    return Ok(amount);
  }

  /** The parents of a list with their new limits. */
  ghost predicate Relimiting(budgets: map<Id, Budget>, rows: map<Id, Budget>, done: set<Id>, limits: map<Id, int>)
  {
    rows.Keys == budgets.Keys && forall id :: id in budgets ==>
      rows[id] == if id in done && id in limits then budgets[id].(limit := limits[id]) else budgets[id]
  }

  lemma RelimitingNext(budgets: map<Id, Budget>, rows: map<Id, Budget>, done: set<Id>, limits: map<Id, int>, id: Id)
    requires Relimiting(budgets, rows, done, limits) && id in budgets && id in limits && id !in done
    ensures rows[id] == budgets[id]
      && Relimiting(budgets, rows[id := rows[id].(limit := limits[id])], done + {id}, limits)
    ensures rows[id].limit == limits[id] ==> Relimiting(budgets, rows, done + {id}, limits)
  {
  }

  lemma NewMember(ids: seq<Id>, i: int)
    requires Distinct(ids) && 0 <= i < |ids|
    ensures ids[i] in ids && ids[i] !in Members(ids[..i]) && Members(ids[..i + 1]) == Members(ids[..i]) + {ids[i]}
  {
    MembersOneMore(ids, i);
  }

  /** The parents checked against their limits and given them, one after another. */
  method RelimitParents(budgets: map<Id, Budget>, parents: seq<Id>, limits: map<Id, int>)
      returns (ok: bool, rows: map<Id, Budget>)
    requires Distinct(parents) && limits.Keys == Members(parents) && forall id :: id in parents ==>
      id in budgets && id in limits
    ensures ok <==> ParentsHold(budgets, parents, limits)
    ensures ok ==> rows == Relimited(budgets, limits)
  {
    rows := budgets;
    for i := 0 to |parents|
      invariant forall k :: 0 <= k < i ==> ParentHolds(budgets[parents[k]], limits[parents[k]])
      invariant Relimiting(budgets, rows, Members(parents[..i]), limits)
    {
      var id := parents[i];
      NewMember(parents, i);
      RelimitingNext(budgets, rows, Members(parents[..i]), limits, id);
      var parent, limit := rows[id], limits[id];
      if parent.unlimited || parent.used > limit || parent.reserved > limit - parent.used {
        return false, rows;
      }
      if parent.limit != limit {
        rows := rows[id := parent.(limit := limit)];
      }
    }
    assert parents[..|parents|] == parents;
    return true, rows;
  }

  /** Whether every checkpoint names a known grant of the node. */
  method ScopeHolds(budgets: map<Id, Budget>, grants: map<Id, Grant>, node: Id, installation: Id, cs: seq<Checkpoint>)
      returns (ok: bool)
    ensures ok <==> InScope(budgets, grants, node, installation, cs)
  {
    for i := 0 to |cs|
      invariant forall k :: 0 <= k < i ==> KnownHere(budgets, grants, node, installation, cs[k].grant)
    {
      var id := cs[i].grant;
      if id !in grants || grants[id].node != node || grants[id].installation != installation
        || grants[id].budgets == {} || !(grants[id].budgets <= budgets.Keys) {
        return false;
      }
    }
    return true;
  }

  class Store {
    var budgets: map<Id, Budget>
    ghost var opening: map<Id, int>
    var terms: map<Id, Term>
    var usage: map<Id, Traffic>
    var grants: map<Id, Grant>
    var meters: map<MeterKey, Meter>
    var cursors: map<(Id, Id), Cursor>
    var placements: map<Id, (Id, Id)>
    var operations: map<Id, Operation>

    ghost function View(): State
      reads this
    {
      State(budgets, opening, terms, usage, grants, meters, cursors, placements, operations)
    }

    constructor ()
      ensures View() == EMPTY
    {
      budgets, opening, terms, usage, grants, meters, cursors, placements, operations := map[], map[], map[], map[],
        map[], map[], map[], map[], map[];
    }

    method FindGrant(in': ReserveRequest, placement: Option<Id>) returns (r: Result<Grant>)
      ensures r == GrantFor(View(), in', placement)
    {
      if in'.grant !in grants {
        return Ok(Grant(in'.client, in'.term, in'.node, in'.installation, in'.runtime, in'.unlimited, 0, 0, 1,
          placement, Members(in'.budgets)));
      }
      var g := grants[in'.grant];
      if g.node != in'.node || g.installation != in'.installation || g.client != in'.client || g.term != in'.term
        || g.runtime != in'.runtime
        || g.unlimited != in'.unlimited || g.revision == MAX_INT64 {
        return Err(Scope);
      }
      if placement.Some? && g.placement != placement {
        return Err(Scope);
      }
      if g.budgets != Members(in'.budgets) {
        return Err(Scope);
      }
      return Ok(g.(revision := g.revision + 1));
    }

    method ReservePlan(in': ReserveRequest, placement: Option<Id>) returns (p: Result<(Grant, map<Id, Budget>)>)
      requires ValidReserve(in')
      ensures p == PlanReserve(View(), in', placement)
    {
      if in'.term in terms && terms[in'.term].client == in'.client && terms[in'.term].budget !in in'.budgets {
        return Err(Scope);
      }
      if exists id :: id in in'.budgets && id !in budgets {
        return Err(Scope);
      }
      var result :- FindGrant(in', placement);
      if Exceeds(result.issued, in'.bytes) {
        return Err(Error.Budget);
      }
      var ok, rows := ReserveBudgets(budgets, in'.budgets, in'.bytes, in'.unlimited);
      if !ok {
        return Err(Error.Budget);
      }
      return Ok((result.(issued := result.issued + in'.bytes), rows));
    }

    method NewReservation(in': ReserveRequest, placement: Option<Id>) returns (r: Result<Grant>)
      requires ValidReserve(in')
      modifies this
      ensures match ApplyReserve(old(View()), in', placement)
        case Ok(v) => r == Ok(v.1) && View() == v.0
        case Err(e) => r == Err(e) && View() == old(View())
    {
      var plan :- ReservePlan(in', placement);
      var (result, rows) := plan;
      budgets, grants := rows, grants[in'.grant := result];
      operations := operations[in'.operation := Operation(Reservation(in'), result)];
      return Ok(result);
    }

    /** Answered from its record, or checked, reserved and recorded. */
    method ReserveOnce(in': ReserveRequest, placement: Option<Id>, fence: Check, guard: Check)
        returns (r: Result<Grant>)
      modifies this
      ensures match Ledger.Reserve(old(View()), in', placement, fence, guard)
        case Ok(v) => r == Ok(v.1) && View() == v.0
        case Err(e) => r == Err(e) && View() == old(View())
    {
      if !ValidReserve(in') {
        return Err(Invalid);
      }
      :- fence;
      if in'.operation in operations {
        var op := operations[in'.operation];
        if SamePayload(op.payload, Reservation(in')) {
          return Ok(op.result);
        }
        return Err(Conflict);
      }
      :- guard;
      r := NewReservation(in', placement);
    }

    method Reserve(in': ReserveRequest, placement: Option<Id>, fence: Check, guard: Check) returns (r: Result<Grant>)
      modifies this
      ensures match Ledger.Reserve(old(View()), in', placement, fence, guard)
        case Ok(v) => r == Ok(v.1) && View() == v.0
        case Err(e) => r == Err(e) && View() == old(View())
      ensures Effects.ReserveDone(old(View()), View(), in', placement, fence, guard, r)
    {
      Effects.ReserveDoes(View(), in', placement, fence, guard);
      r := ReserveOnce(in', placement, fence, guard);
    }

    method BatchPlan(b: Batch) returns (p: Result<(Work, map<Id, Traffic>)>)
      ensures p == PlanBatch(View(), b)
    {
      var known := ScopeHolds(budgets, grants, b.node, b.installation, b.checkpoints);
      if !known {
        return Err(Scope);
      }
      var w :- AccountCheckpoints(Work(budgets, grants, meters, map[]), b.node, b.installation, b.checkpoints);
      var totals :- AddTermUsage(terms, usage, w.deltas);
      return Ok((w, totals));
    }

    /** Writes the rows of an applied batch. */
    method WriteBatch(b: Batch) returns (r: Result<()>)
      modifies this
      ensures match ApplyBatch(old(View()), b)
        case Ok(s) => r == Ok(()) && View() == s
        case Err(e) => r == Err(e) && View() == old(View())
    {
      var plan :- BatchPlan(b);
      var (w, totals) := plan;
      budgets, grants, meters, usage := w.budgets, w.grants, w.meters, totals;
      cursors := cursors[(b.node, b.installation) := Cursor(b.sequence, Some(b))];
      return Ok(());
    }

    /** Acknowledged again, or written as the next batch. */
    method IngestNext(b: Batch, guard: Check) returns (r: Result<int>)
      modifies this
      ensures match Ledger.Ingest(old(View()), b, guard)
        case Ok(v) => r == Ok(v.1) && View() == v.0
        case Err(e) => r == Err(e) && View() == old(View())
    {
      if !ValidBatch(b) {
        return Err(Invalid);
      }
      :- guard;
      var cursor := if (b.node, b.installation) in cursors then cursors[(b.node, b.installation)] else Cursor(0, None);
      if b.sequence <= cursor.sequence {
        if b.sequence == cursor.sequence && cursor.last != Some(b) {
          return Err(Conflict);
        }
        return Ok(cursor.sequence);
      }
      if cursor.sequence == MAX_INT64 || b.sequence != cursor.sequence + 1 {
        return Err(Sequence);
      }
      var _ :- WriteBatch(b);
      return Ok(b.sequence);
    }

    method Ingest(b: Batch, guard: Check) returns (r: Result<int>)
      modifies this
      ensures match Ledger.Ingest(old(View()), b, guard)
        case Ok(v) => r == Ok(v.1) && View() == v.0
        case Err(e) => r == Err(e) && View() == old(View())
      ensures Batches.IngestDone(old(View()), View(), b, guard, r)
    {
      Batches.IngestDoes(View(), b, guard);
      r := IngestNext(b, guard);
    }

    method CreditPlan(r: CreditRequest) returns (p: Result<(map<Id, Budget>, int)>)
      requires r.term in terms && ValidCredit(r)
      ensures p == PlanCredit(View(), r)
    {
      var term := terms[r.term];
      var ids := [term.budget] + r.parents;
      if term.budget in r.parents || exists id :: id in ids && id !in budgets {
        return Err(Scope);
      }
      forall id | id in r.parents ensures id in budgets && id in r.limits {
        assert id in ids && id in Members(r.parents);
      }
      var ok, rows := RelimitParents(budgets, r.parents, r.limits);
      if !ok {
        return Err(Error.Budget);
      }
      assert term.budget in ids;
      var amount :- AmountOf(rows, grants, ids, term.budget, term.client, r);
      return Ok((rows, amount));
    }

    /** The ledger part of a credit: the parents' limits, the amount, the reservation. */
    method DrawCredit(r: CreditRequest, t: Target, inner: Check) returns (g: Result<Grant>)
      requires r.term in terms && ValidCredit(r)
      modifies this
      ensures match ApplyCredit(old(View()), r, t, inner)
        case Ok(v) => g == Ok(v.1) && View() == v.0
        case Err(e) => g == Err(e) && View() == old(View())
    {
      var plan :- CreditPlan(r);
      var (rows, amount) := plan;
      var term := terms[r.term];
      var grant := if t.placement in placements && placements[t.placement].1 == r.term then placements[t.placement].0
        else t.newGrant;
      var in' := ReserveRequest(t.ledgerOperation, grant, t.node, t.installation, t.runtime, term.client, r.term,
        [term.budget] + r.parents, amount, false);
      assert in' == Drawn(View(), r, t, amount);
      var budgets0, operations0 := budgets, operations;
      budgets, operations := rows, operations[r.operation := Operation(Credit(r), NO_GRANT)];
      assert View() == Claimed(old(View()), r, rows);
      g := ReserveOnce(in', Some(t.placement), Pass, inner);
      if g.Err? {
        budgets, operations := budgets0, operations0;
        return;
      }
      placements := placements[t.placement := (grant, r.term)];
      operations := operations[r.operation := Operation(Credit(r), g.value)];
    }

    /** Answered from its record, or drawn. */
    method CreditOnce(r: CreditRequest, t: Target, guard: Check, inner: Check) returns (g: Result<Grant>)
      modifies this
      ensures match ReserveClientCredit(old(View()), r, t, guard, inner)
        case Ok(v) => g == Ok(v.1) && View() == v.0
        case Err(e) => g == Err(e) && View() == old(View())
    {
      if !ValidCredit(r) {
        return Err(Invalid);
      }
      :- guard;
      if r.term !in terms {
        return Err(Scope);
      }
      if r.operation in operations {
        var op := operations[r.operation];
        if SamePayload(op.payload, Credit(r)) {
          return Ok(op.result);
        }
        return Err(Conflict);
      }
      g := DrawCredit(r, t, inner);
    }

    method ReserveCredit(r: CreditRequest, t: Target, guard: Check, inner: Check) returns (g: Result<Grant>)
      modifies this
      ensures match ReserveClientCredit(old(View()), r, t, guard, inner)
        case Ok(v) => g == Ok(v.1) && View() == v.0
        case Err(e) => g == Err(e) && View() == old(View())
      ensures Effects.CreditDone(old(View()), View(), r, t, guard, inner, g)
    {
      Effects.CreditDoes(View(), r, t, guard, inner);
      g := CreditOnce(r, t, guard, inner);
    }
  }
}
