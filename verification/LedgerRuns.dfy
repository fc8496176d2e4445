/** What every transaction of the ledger keeps, over every run. */
module LedgerRuns {
  import opened Results
  import opened MapSums
  import opened Ledger

  // ----- what the sums range over -----

  function ConsumedIn(budget: Id): Grant -> int
  {
    (g: Grant) => if budget in g.budgets then g.consumed else 0
  }

  function HeldIn(budget: Id): Grant -> int
  {
    (g: Grant) => if budget in g.budgets then g.issued - g.consumed else 0
  }

  function IssuedIn(budget: Id): Grant -> int
  {
    (g: Grant) => if budget in g.budgets then g.issued else 0
  }

  function MeteredBy(grant: Id): Meter -> int
  {
    (m: Meter) => if m.grant == grant then m.uploaded + m.downloaded else 0
  }

  /** The client and term of every grant. */
  function Owners(grants: map<Id, Grant>): map<Id, (Id, Id)>
  {
    map id | id in grants :: (grants[id].client, grants[id].term)
  }

  predicate OwnedBy(owners: map<Id, (Id, Id)>, grant: Id, owner: (Id, Id))
  {
    grant in owners && owners[grant] == owner
  }

  function UploadedBy(owners: map<Id, (Id, Id)>, owner: (Id, Id)): Meter -> int
  {
    (m: Meter) => if OwnedBy(owners, m.grant, owner) then m.uploaded else 0
  }

  function DownloadedBy(owners: map<Id, (Id, Id)>, owner: (Id, Id)): Meter -> int
  {
    (m: Meter) => if OwnedBy(owners, m.grant, owner) then m.downloaded else 0
  }

  // ----- the invariant -----

  /** A budget's used bytes are its opening and what its grants consumed; a limited
      one reserves exactly what its grants may still consume, within its limit. */
  ghost predicate BudgetOk(b: Budget, id: Id, opening: int, grants: map<Id, Grant>)
  {
    && 0 <= opening && b.used == opening + MapSum(grants, ConsumedIn(id))
    && 0 <= b.used <= MAX_INT64 && 0 <= b.reserved && 0 <= b.limit <= MAX_INT64
    && (!b.unlimited ==> b.reserved == MapSum(grants, HeldIn(id)) && b.used + b.reserved <= b.limit)
  }

  ghost predicate BudgetsOk(budgets: map<Id, Budget>, opening: map<Id, int>, grants: map<Id, Grant>)
  {
    budgets.Keys == opening.Keys && forall id :: id in budgets ==> BudgetOk(budgets[id], id, opening[id], grants)
  }

  predicate GrantOk(g: Grant, budgets: map<Id, Budget>)
  {
    && g.budgets != {} && g.budgets <= budgets.Keys && 0 <= g.consumed <= MAX_INT64 && 0 <= g.issued <= MAX_INT64
    && (!g.unlimited ==> g.consumed <= g.issued)
    && (g.unlimited ==> g.issued == 0 && forall b :: b in g.budgets ==> budgets[b].unlimited)
  }

  predicate GrantsOk(grants: map<Id, Grant>, budgets: map<Id, Budget>)
  {
    forall id :: id in grants ==> GrantOk(grants[id], budgets)
  }

  predicate MeterOk(key: MeterKey, m: Meter, grants: map<Id, Grant>)
  {
    m.grant == key.0 && m.grant in grants && 0 <= m.uploaded <= MAX_INT64 && 0 <= m.downloaded <= MAX_INT64
  }

  predicate MetersOk(meters: map<MeterKey, Meter>, grants: map<Id, Grant>)
  {
    forall key :: key in meters ==> MeterOk(key, meters[key], grants)
  }

  /** A grant consumed exactly what its meters read. */
  ghost predicate ReadingsOk(grants: map<Id, Grant>, meters: map<MeterKey, Meter>)
  {
    forall id :: id in grants ==> grants[id].consumed == MapSum(meters, MeteredBy(id))
  }

  ghost predicate TotalsOk(usage: map<Id, Traffic>, terms: map<Id, Term>, meters: map<MeterKey, Meter>, owners: map<Id,
      (Id, Id)>)
  {
    && usage.Keys == terms.Keys
    && forall t :: t in terms ==>
         && usage[t].uploaded == MapSum(meters, UploadedBy(owners, (terms[t].client, t)))
         && usage[t].downloaded == MapSum(meters, DownloadedBy(owners, (terms[t].client, t)))
  }

  /** No term's total leaves int64. */
  predicate UsageOk(usage: map<Id, Traffic>)
  {
    forall t :: t in usage ==> 0 <= usage[t].uploaded <= MAX_INT64 && 0 <= usage[t].downloaded <= MAX_INT64
  }

  /** Every grant of a managed term draws on the term's own budget. */
  predicate TermsOk(terms: map<Id, Term>, grants: map<Id, Grant>, budgets: map<Id, Budget>)
  {
    && (forall t :: t in terms ==> terms[t].budget in budgets)
    && forall id :: id in grants && grants[id].term in terms && terms[grants[id].term].client == grants[id].client ==>
      terms[grants[id].term].budget in grants[id].budgets
  }

  ghost predicate Inv(s: State)
  {
    && BudgetsOk(s.budgets, s.opening, s.grants) && GrantsOk(s.grants, s.budgets)
    && MetersOk(s.meters, s.grants) && ReadingsOk(s.grants, s.meters)
    && TotalsOk(s.usage, s.terms, s.meters, Owners(s.grants)) && TermsOk(s.terms, s.grants, s.budgets)
      && UsageOk(s.usage)
  }

  // ----- budgets and grants -----

  lemma HeldIsCovered(b: Budget, id: Id, opening: int, grants: map<Id, Grant>, budgets: map<Id, Budget>, grant: Id)
    requires BudgetOk(b, id, opening, grants) && !b.unlimited && GrantsOk(grants, budgets) && id in budgets
      && budgets[id] == b
    requires grant in grants && id in grants[grant].budgets
    ensures !grants[grant].unlimited && grants[grant].issued - grants[grant].consumed <= b.reserved
  {
    assert GrantOk(grants[grant], budgets);
    forall k | k in grants ensures HeldIn(id)(grants[k]) >= 0 {
      assert GrantOk(grants[k], budgets);
    }
    MapSumAtLeast(grants, grant, HeldIn(id));
  }

  /** A limited budget never rejects what its grant accepts. */
  lemma GrantDecides(w: Work, opening: map<Id, int>, grant: Id, delta: int, budget: Id)
    requires BudgetsOk(w.budgets, opening, w.grants) && GrantsOk(w.grants, w.budgets)
    requires grant in w.grants && budget in w.grants[grant].budgets && budget in w.budgets
      && !w.budgets[budget].unlimited
    requires 0 <= delta && GrantTakes(w.grants[grant], delta)
    ensures Takes(w.budgets[budget], delta)
  {
    assert BudgetOk(w.budgets[budget], budget, opening[budget], w.grants);
    HeldIsCovered(w.budgets[budget], budget, opening[budget], w.grants, w.budgets, grant);
  }

  function SpentBy(grants: map<Id, Grant>, grant: Id, delta: int): map<Id, Grant>
    requires grant in grants
  {
    grants[grant := grants[grant].(consumed := grants[grant].consumed + delta)]
  }

  lemma SpendKeepsBudget(b: Budget, id: Id, opening: int, grants: map<Id, Grant>, grant: Id, delta: int)
    requires BudgetOk(b, id, opening, grants) && grant in grants && 0 <= delta
      && (id in grants[grant].budgets ==> Takes(b, delta))
    ensures BudgetOk(if id in grants[grant].budgets then Spent(b, delta)
      else b, id, opening, SpentBy(grants, grant, delta))
  {
    var g := grants[grant].(consumed := grants[grant].consumed + delta);
    MapSumWrite(grants, grant, g, ConsumedIn(id));
    MapSumWrite(grants, grant, g, HeldIn(id));
  }

  lemma SpendKeepsGrants(w: Work, grant: Id, delta: int)
    requires GrantsOk(w.grants, w.budgets) && grant in w.grants && 0 <= delta && GrantTakes(w.grants[grant], delta)
    ensures GrantsOk(SpentBy(w.grants, grant, delta), SpendIn(w.budgets, w.grants[grant].budgets, delta))
  {
    var after := SpentBy(w.grants, grant, delta);
    forall id | id in after ensures GrantOk(after[id], SpendIn(w.budgets, w.grants[grant].budgets, delta)) {
      assert GrantOk(w.grants[id], w.budgets);
    }
  }

  // ----- meters and totals -----

  /** What a batch so far handed to the term totals is what its meters grew by. */
  ghost predicate DeltasOk(deltas: map<(Id, Id), Traffic>, first: map<MeterKey, Meter>, meters: map<MeterKey, Meter>,
      owners: map<Id, (Id, Id)>)
  {
    forall owner ::
      && MapSum(meters, UploadedBy(owners, owner)) ==
        MapSum(first, UploadedBy(owners, owner)) + TrafficAt(deltas, owner).uploaded
      && MapSum(meters, DownloadedBy(owners, owner)) ==
        MapSum(first, DownloadedBy(owners, owner)) + TrafficAt(deltas, owner).downloaded
  }

  /** A meter read again: its row written, its grant's readings grown by the delta. */
  lemma ReadingKeepsReadings(grants: map<Id, Grant>, meters: map<MeterKey, Meter>, key: MeterKey, m: Meter, delta: int)
    requires ReadingsOk(grants, meters) && MetersOk(meters, grants) && m.grant == key.0 && m.grant in grants
    requires m.uploaded + m.downloaded == MeterAt(meters, key).uploaded + MeterAt(meters, key).downloaded + delta
    ensures ReadingsOk(SpentBy(grants, m.grant, delta), meters[key := m])
  {
    var after := SpentBy(grants, m.grant, delta);
    forall id | id in after ensures after[id].consumed == MapSum(meters[key := m], MeteredBy(id)) {
      MapSumWrite(meters, key, m, MeteredBy(id));
      if key in meters {
        assert MeterOk(key, meters[key], grants);
      }
    }
  }

  /** A batch's totals with one owner's part grown. */
  ghost predicate Grown(before: map<(Id, Id), Traffic>, after: map<(Id, Id), Traffic>, grown: (Id, Id), up: int,
      down: int)
  {
    forall owner :: TrafficAt(after, owner) == if owner == grown then AddTraffic(TrafficAt(before, owner), up, down)
      else TrafficAt(before, owner)
  }

  lemma ReadingGrowsDelta(deltas: map<(Id, Id), Traffic>, first: map<MeterKey, Meter>, meters: map<MeterKey, Meter>,
      owners: map<Id, (Id, Id)>,
      key: MeterKey, m: Meter, after: map<(Id, Id), Traffic>)
    requires DeltasOk(deltas, first, meters, owners) && m.grant == key.0
      && (key in meters ==> meters[key].grant == key.0) && m.grant in owners
    requires Grown(deltas, after, owners[m.grant], m.uploaded - MeterAt(meters, key).uploaded,
      m.downloaded - MeterAt(meters, key).downloaded)
    ensures DeltasOk(after, first, meters[key := m], owners)
  {
    forall owner
      ensures MapSum(meters[key := m], UploadedBy(owners, owner)) ==
        MapSum(first, UploadedBy(owners, owner)) + TrafficAt(after, owner).uploaded
      ensures MapSum(meters[key := m], DownloadedBy(owners, owner)) ==
        MapSum(first, DownloadedBy(owners, owner)) + TrafficAt(after, owner).downloaded
    {
      MapSumWrite(meters, key, m, UploadedBy(owners, owner));
      MapSumWrite(meters, key, m, DownloadedBy(owners, owner));
    }
  }

  /** A delta spent from a grant and from every budget it is linked to. */
  ghost predicate Spends(w: Work, v: Work, grant: Id, delta: int)
  {
    && grant in w.grants && 0 <= delta
      && (forall b :: b in w.grants[grant].budgets && b in w.budgets ==> Takes(w.budgets[b], delta))
    && v.budgets == SpendIn(w.budgets, w.grants[grant].budgets, delta) && v.grants == SpentBy(w.grants, grant, delta)
  }

  /** What one accepted checkpoint does: its meter's growth is spent from its
      grant and from every budget of the grant, and counted for its owner. */
  ghost predicate Accepted(w: Work, v: Work, c: Checkpoint, up: int, down: int)
  {
    && c.grant in w.grants && w.grants[c.grant].budgets <= w.budgets.Keys
    && up == c.uploaded - MeterAt(w.meters, KeyOf(c)).uploaded
      && down == c.downloaded - MeterAt(w.meters, KeyOf(c)).downloaded
    && 0 <= up && 0 <= down && GrantTakes(w.grants[c.grant], up + down) && Spends(w, v, c.grant, up + down)
    && v.meters == w.meters[KeyOf(c) := Meter(c.grant, c.uploaded, c.downloaded)]
    && Grown(w.deltas, v.deltas, (w.grants[c.grant].client, w.grants[c.grant].term), up, down)
  }

  lemma CheckpointShape(w: Work, c: Checkpoint, v: Work) returns (up: int, down: int)
    requires c.grant in w.grants && w.grants[c.grant].budgets <= w.budgets.Keys && ApplyCheckpoint(w, c) == Ok(v)
    ensures Accepted(w, v, c, up, down)
  {
    up, down := c.uploaded - MeterAt(w.meters, KeyOf(c)).uploaded,
      c.downloaded - MeterAt(w.meters, KeyOf(c)).downloaded;
  }

  lemma SpendingKeepsBudgets(w: Work, v: Work, grant: Id, delta: int, opening: map<Id, int>)
    requires Spends(w, v, grant, delta) && BudgetsOk(w.budgets, opening, w.grants)
    ensures BudgetsOk(v.budgets, opening, v.grants)
  {
    forall id | id in v.budgets ensures BudgetOk(v.budgets[id], id, opening[id], v.grants) {
      assert BudgetOk(w.budgets[id], id, opening[id], w.grants);
      SpendKeepsBudget(w.budgets[id], id, opening[id], w.grants, grant, delta);
    }
  }

  lemma AcceptedKeepsBudgets(w: Work, v: Work, c: Checkpoint, up: int, down: int, opening: map<Id, int>)
    requires Accepted(w, v, c, up, down) && BudgetsOk(w.budgets, opening, w.grants)
    ensures BudgetsOk(v.budgets, opening, v.grants)
  {
    SpendingKeepsBudgets(w, v, c.grant, up + down, opening);
  }

  lemma AcceptedKeepsGrants(w: Work, v: Work, c: Checkpoint, up: int, down: int)
    requires Accepted(w, v, c, up, down) && GrantsOk(w.grants, w.budgets)
    ensures GrantsOk(v.grants, v.budgets)
  {
    SpendKeepsGrants(w, c.grant, up + down);
  }

  lemma AcceptedKeepsReadings(w: Work, v: Work, c: Checkpoint, up: int, down: int)
    requires Accepted(w, v, c, up, down) && ValidCheckpoint(c) && MetersOk(w.meters, w.grants)
      && ReadingsOk(w.grants, w.meters)
    ensures MetersOk(v.meters, v.grants) && ReadingsOk(v.grants, v.meters)
  {
    var m := Meter(c.grant, c.uploaded, c.downloaded);
    MetersStayOk(w.meters, w.grants, KeyOf(c), m, up + down);
    ReadingKeepsReadings(w.grants, w.meters, KeyOf(c), m, up + down);
  }

  lemma AcceptedKeepsDeltas(w: Work, v: Work, c: Checkpoint, up: int, down: int, first: map<MeterKey, Meter>,
      owners: map<Id, (Id, Id)>)
    requires Accepted(w, v, c, up, down) && Owners(w.grants) == owners && DeltasOk(w.deltas, first, w.meters, owners)
      && MetersOk(w.meters, w.grants)
    ensures DeltasOk(v.deltas, first, v.meters, owners) && Owners(v.grants) == owners
  {
    if KeyOf(c) in w.meters {
      assert MeterOk(KeyOf(c), w.meters[KeyOf(c)], w.grants);
    }
    assert owners[c.grant] == (w.grants[c.grant].client, w.grants[c.grant].term);
    ReadingGrowsDelta(w.deltas, first, w.meters, owners, KeyOf(c), Meter(c.grant, c.uploaded, c.downloaded), v.deltas);
  }

  lemma MetersStayOk(meters: map<MeterKey, Meter>, grants: map<Id, Grant>, key: MeterKey, m: Meter, delta: int)
    requires MetersOk(meters, grants) && m.grant in grants && MeterOk(key, m, grants)
    ensures MetersOk(meters[key := m], SpentBy(grants, m.grant, delta))
  {
    var after := meters[key := m];
    forall k | k in after ensures MeterOk(k, after[k], SpentBy(grants, m.grant, delta)) {
      if k != key {
        assert MeterOk(k, meters[k], grants);
      }
    }
  }

  lemma LastCheckpoint(w: Work, node: Id, installation: Id, cs: seq<Checkpoint>) returns (v: Work)
    requires cs != [] && InScope(w.budgets, w.grants, node, installation, cs)
      && ApplyCheckpoints(w, node, installation, cs).Ok?
    ensures InScope(w.budgets, w.grants, node, installation, cs[..|cs| - 1])
    ensures ApplyCheckpoints(w, node, installation, cs[..|cs| - 1]) == Ok(v)
    ensures var c := cs[|cs| - 1];
      c.grant in v.grants && v.grants[c.grant].budgets <= v.budgets.Keys
        && ApplyCheckpoints(w, node, installation, cs) == ApplyCheckpoint(v, c)
  {
    v := ApplyCheckpoints(w, node, installation, cs[..|cs| - 1]).value;
    assert KnownHere(w.budgets, w.grants, node, installation, cs[|cs| - 1].grant);
  }

  /** The last of a batch's accepted checkpoints: the rows it found and the rows it left. */
  lemma LastAccepted(w: Work, node: Id, installation: Id, cs: seq<Checkpoint>)
      returns (v: Work, u: Work, up: int, down: int)
    requires cs != [] && InScope(w.budgets, w.grants, node, installation, cs)
      && ApplyCheckpoints(w, node, installation, cs).Ok?
    ensures InScope(w.budgets, w.grants, node, installation, cs[..|cs| - 1])
    ensures ApplyCheckpoints(w, node, installation, cs[..|cs| - 1]) == Ok(v)
      && ApplyCheckpoints(w, node, installation, cs) == Ok(u)
    ensures Accepted(v, u, cs[|cs| - 1], up, down)
  {
    v := LastCheckpoint(w, node, installation, cs);
    u := ApplyCheckpoints(w, node, installation, cs).value;
    up, down := CheckpointShape(v, cs[|cs| - 1], u);
  }

  lemma {:induction false} BatchKeepsBudgets(w: Work, node: Id, installation: Id, cs: seq<Checkpoint>, after: Work,
      opening: map<Id, int>)
    requires InScope(w.budgets, w.grants, node, installation, cs)
      && ApplyCheckpoints(w, node, installation, cs) == Ok(after)
    requires BudgetsOk(w.budgets, opening, w.grants)
    ensures BudgetsOk(after.budgets, opening, after.grants)
    decreases |cs|
  {
    if cs != [] {
      var v, u, up, down := LastAccepted(w, node, installation, cs);
      BatchKeepsBudgets(w, node, installation, cs[..|cs| - 1], v, opening);
      AcceptedKeepsBudgets(v, after, cs[|cs| - 1], up, down, opening);
    }
  }

  lemma {:induction false} BatchKeepsGrants(w: Work, node: Id, installation: Id, cs: seq<Checkpoint>, after: Work)
    requires InScope(w.budgets, w.grants, node, installation, cs)
      && ApplyCheckpoints(w, node, installation, cs) == Ok(after)
    requires GrantsOk(w.grants, w.budgets)
    ensures GrantsOk(after.grants, after.budgets)
    decreases |cs|
  {
    if cs != [] {
      var v, u, up, down := LastAccepted(w, node, installation, cs);
      BatchKeepsGrants(w, node, installation, cs[..|cs| - 1], v);
      AcceptedKeepsGrants(v, after, cs[|cs| - 1], up, down);
    }
  }

  lemma {:induction false} BatchKeepsReadings(w: Work, node: Id, installation: Id, cs: seq<Checkpoint>, after: Work)
    requires InScope(w.budgets, w.grants, node, installation, cs)
      && ApplyCheckpoints(w, node, installation, cs) == Ok(after)
    requires (forall i :: 0 <= i < |cs| ==> ValidCheckpoint(cs[i])) && MetersOk(w.meters, w.grants)
      && ReadingsOk(w.grants, w.meters)
    ensures MetersOk(after.meters, after.grants) && ReadingsOk(after.grants, after.meters)
    decreases |cs|
  {
    if cs != [] {
      var v, u, up, down := LastAccepted(w, node, installation, cs);
      BatchKeepsReadings(w, node, installation, cs[..|cs| - 1], v);
      AcceptedKeepsReadings(v, after, cs[|cs| - 1], up, down);
    }
  }

  /** Over a whole batch, what is handed to the term totals is what the meters grew by. */
  lemma {:induction false} BatchKeepsDeltas(w: Work, node: Id, installation: Id, cs: seq<Checkpoint>, after: Work,
      first: map<MeterKey, Meter>, owners: map<Id, (Id, Id)>)
    requires InScope(w.budgets, w.grants, node, installation, cs)
      && ApplyCheckpoints(w, node, installation, cs) == Ok(after)
    requires (forall i :: 0 <= i < |cs| ==> ValidCheckpoint(cs[i])) && MetersOk(w.meters, w.grants)
      && ReadingsOk(w.grants, w.meters)
    requires Owners(w.grants) == owners && DeltasOk(w.deltas, first, w.meters, owners)
    ensures DeltasOk(after.deltas, first, after.meters, owners) && Owners(after.grants) == owners
    decreases |cs|
  {
    if cs != [] {
      var v, u, up, down := LastAccepted(w, node, installation, cs);
      BatchKeepsReadings(w, node, installation, cs[..|cs| - 1], v);
      BatchKeepsDeltas(w, node, installation, cs[..|cs| - 1], v, first, owners);
      AcceptedKeepsDeltas(v, after, cs[|cs| - 1], up, down, first, owners);
    }
  }

  lemma RecordedTotal(terms: map<Id, Term>, usage: map<Id, Traffic>, deltas: map<(Id, Id), Traffic>, t: Id)
    requires t in terms && t in usage
    ensures var d := TrafficAt(deltas, (terms[t].client, t));
      TotalsAfter(terms, usage, deltas)[t] == AddTraffic(usage[t], d.uploaded, d.downloaded)
  {
  }

  lemma RecordingKeepsTotals(s: State, deltas: map<(Id, Id), Traffic>, meters: map<MeterKey, Meter>, owners: map<Id,
      (Id, Id)>)
    requires TotalsOk(s.usage, s.terms, s.meters, owners) && DeltasOk(deltas, s.meters, meters, owners)
    ensures TotalsOk(TotalsAfter(s.terms, s.usage, deltas), s.terms, meters, owners)
  {
    var usage := TotalsAfter(s.terms, s.usage, deltas);
    forall t | t in s.terms
      ensures usage[t].uploaded == MapSum(meters, UploadedBy(owners, (s.terms[t].client, t)))
      ensures usage[t].downloaded == MapSum(meters, DownloadedBy(owners, (s.terms[t].client, t)))
    {
      RecordedTotal(s.terms, s.usage, deltas, t);
      var owner := (s.terms[t].client, t);
      assert MapSum(meters, UploadedBy(owners, owner)) ==
        MapSum(s.meters, UploadedBy(owners, owner)) + TrafficAt(deltas, owner).uploaded;
    }
  }

  lemma SameScopeKeepsTerms(terms: map<Id, Term>, a: map<Id, Grant>, b: map<Id, Grant>, before: map<Id, Budget>,
      after: map<Id, Budget>)
    requires TermsOk(terms, a, before) && SameScope(a, b) && before.Keys == after.Keys
    ensures TermsOk(terms, b, after)
  {
  }

  lemma RecordedTotals(terms: map<Id, Term>, usage: map<Id, Traffic>, deltas: map<(Id, Id), Traffic>)
    requires RecordTermUsage(terms, usage, deltas).Ok?
    ensures RecordTermUsage(terms, usage, deltas).value == TotalsAfter(terms, usage, deltas)
    ensures UsageOk(usage) ==> UsageOk(TotalsAfter(terms, usage, deltas))
  {
  }

  /** The rows an applied batch worked on, and the store it left. */
  lemma BatchShape(s: State, b: Batch) returns (w: Work)
    requires ApplyBatch(s, b).Ok?
    ensures InScope(s.budgets, s.grants, b.node, b.installation, b.checkpoints)
    ensures ApplyCheckpoints(Work(s.budgets, s.grants, s.meters, map[]), b.node, b.installation, b.checkpoints) == Ok(w)
    ensures ApplyBatch(s, b).value ==
      s.(budgets := w.budgets, grants := w.grants, meters := w.meters, usage := TotalsAfter(s.terms, s.usage, w.deltas),
                                         cursors := s.cursors[(b.node, b.installation) := Cursor(b.sequence, Some(b))])
    ensures UsageOk(s.usage) ==> UsageOk(ApplyBatch(s, b).value.usage)
  {
    w := ApplyCheckpoints(Work(s.budgets, s.grants, s.meters, map[]), b.node, b.installation, b.checkpoints).value;
    RecordedTotals(s.terms, s.usage, w.deltas);
  }

  lemma BatchKeepsInv(s: State, b: Batch, w: Work, t: State)
    requires Inv(s) && ValidBatch(b) && InScope(s.budgets, s.grants, b.node, b.installation, b.checkpoints)
    requires ApplyCheckpoints(Work(s.budgets, s.grants, s.meters, map[]), b.node, b.installation,
      b.checkpoints) == Ok(w)
    requires t == s.(budgets := w.budgets, grants := w.grants, meters := w.meters,
      usage := TotalsAfter(s.terms, s.usage, w.deltas), cursors := t.cursors)
    requires UsageOk(t.usage)
    ensures Inv(t)
  {
    var w0 := Work(s.budgets, s.grants, s.meters, map[]);
    BatchKeepsBudgets(w0, b.node, b.installation, b.checkpoints, w, s.opening);
    BatchKeepsGrants(w0, b.node, b.installation, b.checkpoints, w);
    BatchKeepsReadings(w0, b.node, b.installation, b.checkpoints, w);
    BatchKeepsDeltas(w0, b.node, b.installation, b.checkpoints, w, s.meters, Owners(s.grants));
    RecordingKeepsTotals(s, w.deltas, w.meters, Owners(s.grants));
    SameScopeKeepsTerms(s.terms, s.grants, w.grants, s.budgets, w.budgets);
  }

  lemma IngestKeepsInv(s: State, b: Batch, guard: Check)
    requires Inv(s) && Ingest(s, b, guard).Ok?
    ensures Inv(Ingest(s, b, guard).value.0)
  {
    if b.sequence > CursorAt(s, b.node, b.installation).sequence {
      var w := BatchShape(s, b);
      BatchKeepsInv(s, b, w, ApplyBatch(s, b).value);
    }
  }

  // ----- reservations -----

  /** A grant after it was issued more bytes: nothing else that is counted moved. */
  predicate Issues(grants: map<Id, Grant>, grant: Id, result: Grant, bytes: int)
  {
    && 0 <= bytes
    && if grant in grants then
         var g := grants[grant];
         result.budgets == g.budgets && result.issued == g.issued + bytes && result.consumed == g.consumed
         && result.client == g.client && result.term == g.term && result.unlimited == g.unlimited
       else result.issued == bytes && result.consumed == 0
  }

  lemma IssueKeepsBudget(b: Budget, id: Id, opening: int, grants: map<Id, Grant>, grant: Id, result: Grant, bytes: int)
    requires BudgetOk(b, id, opening, grants) && Issues(grants, grant, result, bytes)
    requires id in result.budgets ==> RoomFor(b, bytes, result.unlimited)
    ensures BudgetOk(if id in result.budgets then Reserved(b, bytes) else b, id, opening, grants[grant := result])
  {
    MapSumWrite(grants, grant, result, ConsumedIn(id));
    MapSumWrite(grants, grant, result, HeldIn(id));
  }

  lemma IssueKeepsBudgets(budgets: map<Id, Budget>, opening: map<Id, int>, grants: map<Id, Grant>, grant: Id,
      result: Grant, bytes: int)
    requires BudgetsOk(budgets, opening, grants) && Issues(grants, grant, result, bytes)
    requires forall id :: id in result.budgets && id in budgets ==> RoomFor(budgets[id], bytes, result.unlimited)
    ensures BudgetsOk(ReserveIn(budgets, result.budgets, bytes), opening, grants[grant := result])
  {
    var after := ReserveIn(budgets, result.budgets, bytes);
    forall id | id in after ensures BudgetOk(after[id], id, opening[id], grants[grant := result]) {
      assert BudgetOk(budgets[id], id, opening[id], grants);
      IssueKeepsBudget(budgets[id], id, opening[id], grants, grant, result, bytes);
    }
  }

  lemma IssueKeepsGrants(budgets: map<Id, Budget>, grants: map<Id, Grant>, grant: Id, result: Grant, bytes: int)
    requires GrantsOk(grants, budgets) && Issues(grants, grant, result, bytes) && GrantOk(result, budgets)
    ensures GrantsOk(grants[grant := result], ReserveIn(budgets, result.budgets, bytes))
  {
    var after := grants[grant := result];
    forall id | id in after ensures GrantOk(after[id], ReserveIn(budgets, result.budgets, bytes)) {
      if id != grant {
        assert GrantOk(grants[id], budgets);
      }
    }
  }

  lemma IssueKeepsReadings(grants: map<Id, Grant>, meters: map<MeterKey, Meter>, grant: Id, result: Grant, bytes: int)
    requires ReadingsOk(grants, meters) && MetersOk(meters, grants) && Issues(grants, grant, result, bytes)
    ensures ReadingsOk(grants[grant := result], meters) && MetersOk(meters, grants[grant := result])
  {
    forall key | key in meters ensures MeterOk(key, meters[key], grants[grant := result]) {
      assert MeterOk(key, meters[key], grants);
    }
    if grant !in grants {
      forall key | key in meters ensures MeteredBy(grant)(meters[key]) == 0 {
        assert MeterOk(key, meters[key], grants);
      }
      MapSumAllZero(meters, MeteredBy(grant));
    }
  }

  lemma SameMetersSameTotals(meters: map<MeterKey, Meter>, a: map<Id, (Id, Id)>, b: map<Id, (Id, Id)>, owner: (Id, Id))
    requires forall key :: key in meters ==>
      (OwnedBy(a, meters[key].grant, owner) <==> OwnedBy(b, meters[key].grant, owner))
    ensures MapSum(meters, UploadedBy(a, owner)) == MapSum(meters, UploadedBy(b, owner))
    ensures MapSum(meters, DownloadedBy(a, owner)) == MapSum(meters, DownloadedBy(b, owner))
  {
    MapSumEqual(meters, meters, UploadedBy(a, owner), UploadedBy(b, owner));
    MapSumEqual(meters, meters, DownloadedBy(a, owner), DownloadedBy(b, owner));
  }

  lemma IssueKeepsTotals(s: State, grant: Id, result: Grant, bytes: int)
    requires TotalsOk(s.usage, s.terms, s.meters, Owners(s.grants)) && MetersOk(s.meters, s.grants)
      && Issues(s.grants, grant, result, bytes)
    ensures TotalsOk(s.usage, s.terms, s.meters, Owners(s.grants[grant := result]))
  {
    forall t | t in s.terms
      ensures MapSum(s.meters, UploadedBy(Owners(s.grants[grant := result]), (s.terms[t].client, t))) ==
        MapSum(s.meters, UploadedBy(Owners(s.grants), (s.terms[t].client, t)))
      ensures MapSum(s.meters, DownloadedBy(Owners(s.grants[grant := result]), (s.terms[t].client, t))) ==
        MapSum(s.meters, DownloadedBy(Owners(s.grants), (s.terms[t].client, t)))
    {
      forall key | key in s.meters
        ensures OwnedBy(Owners(s.grants), s.meters[key].grant, (s.terms[t].client, t)) <==>
          OwnedBy(Owners(s.grants[grant := result]), s.meters[key].grant, (s.terms[t].client, t))
      {
        assert MeterOk(key, s.meters[key], s.grants);
      }
      SameMetersSameTotals(s.meters, Owners(s.grants), Owners(s.grants[grant := result]), (s.terms[t].client, t));
    }
  }

  /** The shape of an applied reservation. */
  ghost predicate Reserves(s: State, t: State, grant: Id, result: Grant, bytes: int)
  {
    && Issues(s.grants, grant, result, bytes) && GrantOk(result, s.budgets)
    && (forall id :: id in result.budgets && id in s.budgets ==> RoomFor(s.budgets[id], bytes, result.unlimited))
    && (result.term in s.terms && s.terms[result.term].client == result.client ==>
      s.terms[result.term].budget in result.budgets)
    && t == s.(budgets := ReserveIn(s.budgets, result.budgets, bytes), grants := s.grants[grant := result],
      operations := t.operations, placements := t.placements)
  }

  lemma ReservesKeepsBudgets(s: State, t: State, grant: Id, result: Grant, bytes: int)
    requires BudgetsOk(s.budgets, s.opening, s.grants) && Reserves(s, t, grant, result, bytes)
    ensures BudgetsOk(t.budgets, t.opening, t.grants)
  {
    IssueKeepsBudgets(s.budgets, s.opening, s.grants, grant, result, bytes);
  }

  lemma ReservesKeepsGrants(s: State, t: State, grant: Id, result: Grant, bytes: int)
    requires GrantsOk(s.grants, s.budgets) && TermsOk(s.terms, s.grants, s.budgets)
      && Reserves(s, t, grant, result, bytes)
    ensures GrantsOk(t.grants, t.budgets) && TermsOk(t.terms, t.grants, t.budgets)
  {
    IssueKeepsGrants(s.budgets, s.grants, grant, result, bytes);
  }

  lemma ReservesKeepsReadings(s: State, t: State, grant: Id, result: Grant, bytes: int)
    requires ReadingsOk(s.grants, s.meters) && MetersOk(s.meters, s.grants) && Reserves(s, t, grant, result, bytes)
    ensures ReadingsOk(t.grants, t.meters) && MetersOk(t.meters, t.grants)
  {
    IssueKeepsReadings(s.grants, s.meters, grant, result, bytes);
  }

  lemma ReservesKeepsTotals(s: State, t: State, grant: Id, result: Grant, bytes: int)
    requires TotalsOk(s.usage, s.terms, s.meters, Owners(s.grants)) && MetersOk(s.meters, s.grants)
      && Reserves(s, t, grant, result, bytes)
    ensures TotalsOk(t.usage, t.terms, t.meters, Owners(t.grants))
  {
    IssueKeepsTotals(s, grant, result, bytes);
  }

  lemma ReservesKeepsInv(s: State, t: State, grant: Id, result: Grant, bytes: int)
    requires Inv(s) && Reserves(s, t, grant, result, bytes)
    ensures Inv(t)
  {
    ReservesKeepsBudgets(s, t, grant, result, bytes);
    ReservesKeepsGrants(s, t, grant, result, bytes);
    ReservesKeepsReadings(s, t, grant, result, bytes);
    ReservesKeepsTotals(s, t, grant, result, bytes);
  }

  lemma ReserveShape(s: State, in': ReserveRequest, placement: Option<Id>, fence: Check, guard: Check)
    requires GrantsOk(s.grants, s.budgets) && Reserve(s, in', placement, fence, guard).Ok?
      && in'.operation !in s.operations
    ensures var (t, result) := Reserve(s, in', placement, fence, guard).value;
      Reserves(s, t, in'.grant, result, in'.bytes)
  {
    var g := GrantFor(s, in', placement).value;
    if in'.grant in s.grants {
      assert GrantOk(s.grants[in'.grant], s.budgets);
    } else {
      assert in'.budgets[0] in Members(in'.budgets);
    }
  }

  lemma ReserveKeepsInv(s: State, in': ReserveRequest, placement: Option<Id>, fence: Check, guard: Check)
    requires Inv(s) && Reserve(s, in', placement, fence, guard).Ok?
    ensures Inv(Reserve(s, in', placement, fence, guard).value.0)
  {
    if in'.operation !in s.operations {
      ReserveShape(s, in', placement, fence, guard);
      var (t, result) := Reserve(s, in', placement, fence, guard).value;
      ReservesKeepsInv(s, t, in'.grant, result, in'.bytes);
    }
  }

  // ----- client credit -----

  predicate Relimits(budgets: map<Id, Budget>, limits: map<Id, int>)
  {
    forall id :: id in limits ==> id in budgets && 0 <= limits[id] <= MAX_INT64 && ParentHolds(budgets[id], limits[id])
  }

  lemma RelimitingKeepsBudgets(budgets: map<Id, Budget>, opening: map<Id, int>, grants: map<Id, Grant>,
      limits: map<Id, int>)
    requires BudgetsOk(budgets, opening, grants) && Relimits(budgets, limits)
    ensures BudgetsOk(Relimited(budgets, limits), opening, grants)
  {
    var after := Relimited(budgets, limits);
    forall id | id in after ensures BudgetOk(after[id], id, opening[id], grants) {
      assert BudgetOk(budgets[id], id, opening[id], grants);
    }
  }

  lemma RelimitingKeepsGrants(budgets: map<Id, Budget>, terms: map<Id, Term>, grants: map<Id, Grant>,
      limits: map<Id, int>)
    requires GrantsOk(grants, budgets) && TermsOk(terms, grants, budgets)
    ensures GrantsOk(grants, Relimited(budgets, limits)) && TermsOk(terms, grants, Relimited(budgets, limits))
  {
    forall id | id in grants ensures GrantOk(grants[id], Relimited(budgets, limits)) {
      assert GrantOk(grants[id], budgets);
    }
  }

  lemma RelimitingKeepsInv(s: State, limits: map<Id, int>, operations: map<Id, Operation>)
    requires Inv(s) && Relimits(s.budgets, limits)
    ensures Inv(s.(budgets := Relimited(s.budgets, limits), operations := operations))
  {
    RelimitingKeepsBudgets(s.budgets, s.opening, s.grants, limits);
    RelimitingKeepsGrants(s.budgets, s.terms, s.grants, limits);
  }

  lemma CreditSteps(s: State, r: CreditRequest, t: Target, guard: Check, inner: Check) returns (amount: int)
    requires ReserveClientCredit(s, r, t, guard, inner).Ok? && r.operation !in s.operations
    ensures ValidCredit(r) && r.term in s.terms && s.terms[r.term].budget !in r.parents
    ensures forall id :: id in [s.terms[r.term].budget] + r.parents ==> id in s.budgets
    ensures Relimits(s.budgets, r.limits)
    ensures CreditAmount(Relimited(s.budgets, r.limits), s.grants, [s.terms[r.term].budget] + r.parents,
      s.terms[r.term].budget, s.terms[r.term].client, r) == Ok(amount)
    ensures Reserve(Claimed(s, r, Relimited(s.budgets, r.limits)), Drawn(s, r, t, amount), Some(t.placement), Pass,
      inner).Ok?
    ensures var after := ReserveClientCredit(s, r, t, guard, inner).value.0;
      var reserved := Reserve(Claimed(s, r, Relimited(s.budgets, r.limits)), Drawn(s, r, t, amount), Some(t.placement),
      Pass, inner).value.0;
      after == reserved.(placements := after.placements, operations := after.operations)
  {
    var budgets := Relimited(s.budgets, r.limits);
    amount := CreditAmount(budgets, s.grants, [s.terms[r.term].budget] + r.parents, s.terms[r.term].budget,
      s.terms[r.term].client, r).value;
    forall id | id in r.limits ensures id in s.budgets && ParentHolds(s.budgets[id], r.limits[id]) {
      assert id in Members(r.parents);
      assert id in [s.terms[r.term].budget] + r.parents;
    }
  }

  lemma CreditKeepsInv(s: State, r: CreditRequest, t: Target, guard: Check, inner: Check)
    requires Inv(s) && ReserveClientCredit(s, r, t, guard, inner).Ok?
    ensures Inv(ReserveClientCredit(s, r, t, guard, inner).value.0)
  {
    if r.operation !in s.operations {
      var amount := CreditSteps(s, r, t, guard, inner);
      RelimitingKeepsInv(s, r.limits, Claimed(s, r, Relimited(s.budgets, r.limits)).operations);
      ReserveKeepsInv(Claimed(s, r, Relimited(s.budgets, r.limits)), Drawn(s, r, t, amount), Some(t.placement),
        Pass, inner);
    }
  }

  // ----- new budgets and terms -----

  lemma NewBudgetKeepsBudgets(s: State, id: Id, b: Budget)
    requires BudgetsOk(s.budgets, s.opening, s.grants) && GrantsOk(s.grants, s.budgets) && id !in s.budgets
    requires b.reserved == 0 && Sane(b.limit, b.unlimited, b.used)
    ensures BudgetsOk(s.budgets[id := b], s.opening[id := b.used], s.grants)
  {
    var after, opening := s.budgets[id := b], s.opening[id := b.used];
    forall g | g in s.grants ensures ConsumedIn(id)(s.grants[g]) == 0 && HeldIn(id)(s.grants[g]) == 0 {
      assert GrantOk(s.grants[g], s.budgets);
    }
    MapSumAllZero(s.grants, ConsumedIn(id));
    MapSumAllZero(s.grants, HeldIn(id));
    forall k | k in after ensures BudgetOk(after[k], k, opening[k], s.grants) {
      if k != id {
        assert BudgetOk(s.budgets[k], k, s.opening[k], s.grants);
      }
    }
  }

  lemma NewBudgetKeepsGrants(s: State, id: Id, b: Budget)
    requires GrantsOk(s.grants, s.budgets) && id !in s.budgets
    ensures GrantsOk(s.grants, s.budgets[id := b])
  {
    forall g | g in s.grants ensures GrantOk(s.grants[g], s.budgets[id := b]) {
      assert GrantOk(s.grants[g], s.budgets);
    }
  }

  lemma CreateBudgetKeepsInv(s: State, id: Id, limit: int, unlimited: bool, opening: int)
    requires Inv(s) && CreateBudget(s, id, limit, unlimited, opening).Ok?
    ensures Inv(CreateBudget(s, id, limit, unlimited, opening).value)
  {
    NewBudgetKeepsBudgets(s, id, Budget.Budget(limit, unlimited, opening, 0));
    NewBudgetKeepsGrants(s, id, Budget.Budget(limit, unlimited, opening, 0));
  }

  /** No grant was issued for a term before the term existed: its id is new. */
  predicate NewTerm(s: State, id: Id)
  {
    id !in s.terms && forall g :: g in s.grants ==> s.grants[g].term != id
  }

  lemma NewTermKeepsTotals(s: State, id: Id, term: Term)
    requires TotalsOk(s.usage, s.terms, s.meters, Owners(s.grants)) && NewTerm(s, id)
    ensures TotalsOk(s.usage[id := Traffic(0, 0)], s.terms[id := term], s.meters, Owners(s.grants))
  {
    var owner := (term.client, id);
    forall key | key in s.meters
      ensures UploadedBy(Owners(s.grants), owner)(s.meters[key]) == 0
      && DownloadedBy(Owners(s.grants), owner)(s.meters[key]) == 0 {
    }
    MapSumAllZero(s.meters, UploadedBy(Owners(s.grants), owner));
    MapSumAllZero(s.meters, DownloadedBy(Owners(s.grants), owner));
  }

  lemma TermRowKeepsInv(s: State, id: Id, term: Term)
    requires Inv(s) && NewTerm(s, id) && term.budget in s.budgets
    ensures Inv(s.(terms := s.terms[id := term], usage := s.usage[id := Traffic(0, 0)]))
  {
    NewTermKeepsTotals(s, id, term);
    NewTermKeepsTerms(s, id, term);
  }

  lemma NewTermKeepsTerms(s: State, id: Id, term: Term)
    requires TermsOk(s.terms, s.grants, s.budgets) && NewTerm(s, id) && term.budget in s.budgets
    ensures TermsOk(s.terms[id := term], s.grants, s.budgets)
  {
  }

  lemma OpenTermKeepsInv(s: State, id: Id, client: Id, budget: Id, quota: int, unlimited: bool, opening: int)
    requires Inv(s) && NewTerm(s, id) && OpenTerm(s, id, client, budget, quota, unlimited, opening).Ok?
    ensures Inv(OpenTerm(s, id, client, budget, quota, unlimited, opening).value)
  {
    CreateBudgetKeepsInv(s, budget, quota, unlimited, opening);
    TermRowKeepsInv(CreateBudget(s, budget, quota, unlimited, opening).value, id, Term(client, budget));
  }

  // ----- runs -----

  /** The store, and every batch it accepted, in order. */
  datatype World = World(store: State, log: seq<Batch>)

  datatype Event =
    | NewBudget(id: Id, limit: int, unlimited: bool, opening: int)
    | NewTermEvent(term: Id, client: Id, budget: Id, quota: int, unlimitedQuota: bool, openingUse: int)
    | ReserveEvent(reserve: ReserveRequest, placement: Option<Id>, fence: Check, guard: Check)
    | CreditEvent(credit: CreditRequest, target: Target, creditGuard: Check, inner: Check)
    | UsageEvent(batch: Batch, usageGuard: Check)

  /** A transaction that fails changes nothing. */
  ghost function StoreAfter(s: State, e: Event): State
  {
    match e
    case NewBudget(id, limit, unlimited, opening) =>
      var r := CreateBudget(s, id, limit, unlimited, opening); if r.Ok? then r.value else s
    case NewTermEvent(term, client, budget, quota, unlimited, opening) =>
      var r := OpenTerm(s, term, client, budget, quota, unlimited, opening); if r.Ok? then r.value else s
    case ReserveEvent(request, placement, fence, guard) =>
      var r := Reserve(s, request, placement, fence, guard); if r.Ok? then r.value.0 else s
    case CreditEvent(request, target, guard, inner) =>
      var r := ReserveClientCredit(s, request, target, guard, inner); if r.Ok? then r.value.0 else s
    case UsageEvent(batch, guard) =>
      var r := Ingest(s, batch, guard); if r.Ok? then r.value.0 else s
  }

  /** A batch enters the log when it is applied, not when it is acknowledged again. */
  predicate Applies(s: State, e: Event)
  {
    e.UsageEvent? && Ingest(s, e.batch, e.usageGuard).Ok?
      && e.batch.sequence > CursorAt(s, e.batch.node, e.batch.installation).sequence
  }

  ghost function Next(w: World, e: Event): World
  {
    World(StoreAfter(w.store, e), if Applies(w.store, e) then w.log + [e.batch] else w.log)
  }

  /** New terms carry new ids; nothing else is assumed of a run. */
  predicate Honest(w: World, e: Event)
  {
    e.NewTermEvent? ==> NewTerm(w.store, e.term)
  }

  ghost function After(events: seq<Event>): World
  {
    if events == [] then World(EMPTY, []) else Next(After(events[..|events| - 1]), events[|events| - 1])
  }

  ghost predicate HonestRun(events: seq<Event>)
  {
    events == [] || (HonestRun(events[..|events| - 1]) && Honest(After(events[..|events| - 1]), events[|events| - 1]))
  }

  lemma EventKeepsInv(w: World, e: Event)
    requires Inv(w.store) && Honest(w, e)
    ensures Inv(Next(w, e).store)
  {
    var s := w.store;
    match e
    case NewBudget(id, limit, unlimited, opening) =>
      if CreateBudget(s, id, limit, unlimited, opening).Ok? { CreateBudgetKeepsInv(s, id, limit, unlimited, opening); }
    case NewTermEvent(term, client, budget, quota, unlimited, opening) =>
      if OpenTerm(s, term, client, budget, quota, unlimited,
        opening).Ok? { OpenTermKeepsInv(s, term, client, budget, quota, unlimited, opening); }
    case ReserveEvent(request, placement, fence, guard) =>
      if Reserve(s, request, placement, fence, guard).Ok? { ReserveKeepsInv(s, request, placement, fence, guard); }
    case CreditEvent(request, target, guard, inner) =>
      if ReserveClientCredit(s, request, target, guard, inner).Ok? { CreditKeepsInv(s, request, target, guard, inner); }
    case UsageEvent(batch, guard) =>
      if Ingest(s, batch, guard).Ok? { IngestKeepsInv(s, batch, guard); }
  }

  /** The books balance after every run. */
  lemma {:induction false} RunKeepsInv(events: seq<Event>)
    requires HonestRun(events)
    ensures Inv(After(events).store)
  {
    if events != [] {
      RunKeepsInv(events[..|events| - 1]);
      EventKeepsInv(After(events[..|events| - 1]), events[|events| - 1]);
    }
  }
}
