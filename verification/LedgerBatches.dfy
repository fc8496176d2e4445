/** What a usage batch accepts and what it writes, said of its totals: how much each
    grant, budget and term grows, whatever the order of the readings. The lemmas tie
    this to the reading-by-reading account of `Ledger`. */
module LedgerBatches {
  import opened Results
  import opened MapSums
  import opened Ledger
  import LedgerRuns

  // ----- how much a batch adds -----

  function UpGrowth(meters: map<MeterKey, Meter>, c: Checkpoint): int
  {
    c.uploaded - if (c.grant, c.meter, c.incarnation) in meters
      then meters[(c.grant, c.meter, c.incarnation)].uploaded else 0
  }

  function DownGrowth(meters: map<MeterKey, Meter>, c: Checkpoint): int
  {
    c.downloaded - if (c.grant, c.meter, c.incarnation) in meters
      then meters[(c.grant, c.meter, c.incarnation)].downloaded else 0
  }

  function Growth(meters: map<MeterKey, Meter>, c: Checkpoint): int
  {
    UpGrowth(meters, c) + DownGrowth(meters, c)
  }

  function OfGrant(meters: map<MeterKey, Meter>, cs: seq<Checkpoint>, grant: Id): int
  {
    if cs == [] then 0
    else
      var c := cs[|cs| - 1];
      OfGrant(meters, cs[..|cs| - 1], grant) + if c.grant == grant then Growth(meters, c) else 0
  }

  predicate Linked(grants: map<Id, Grant>, c: Checkpoint, budget: Id)
  {
    c.grant in grants && budget in grants[c.grant].budgets
  }

  function OfBudget(meters: map<MeterKey, Meter>, grants: map<Id, Grant>, cs: seq<Checkpoint>, budget: Id): int
  {
    if cs == [] then 0
    else
      var c := cs[|cs| - 1];
      OfBudget(meters, grants, cs[..|cs| - 1], budget) + if Linked(grants, c, budget) then Growth(meters, c) else 0
  }

  function UpOf(meters: map<MeterKey, Meter>, cs: seq<Checkpoint>, owner: (Id, Id)): int
  {
    if cs == [] then 0
    else
      var c := cs[|cs| - 1];
      UpOf(meters, cs[..|cs| - 1], owner) + if (c.client, c.term) == owner then UpGrowth(meters, c) else 0
  }

  function DownOf(meters: map<MeterKey, Meter>, cs: seq<Checkpoint>, owner: (Id, Id)): int
  {
    if cs == [] then 0
    else
      var c := cs[|cs| - 1];
      DownOf(meters, cs[..|cs| - 1], owner) + if (c.client, c.term) == owner then DownGrowth(meters, c) else 0
  }

  // ----- which batches fit -----

  /** A reading of the grant's own client, term and runtime that is not behind its meter. */
  predicate Readable(w: Work, c: Checkpoint)
  {
    && c.grant in w.grants && w.grants[c.grant].client == c.client && w.grants[c.grant].term == c.term
    && w.grants[c.grant].runtime == c.meter
    && 0 <= UpGrowth(w.meters, c) && 0 <= DownGrowth(w.meters, c) && Growth(w.meters, c) <= MAX_INT64
  }

  /** The grant of a reading covers all that the batch adds to it. */
  predicate GrantCovers(w: Work, cs: seq<Checkpoint>, grant: Id)
  {
    && grant in w.grants
    && var total := w.grants[grant].consumed + OfGrant(w.meters, cs, grant);
    total <= MAX_INT64 && (w.grants[grant].unlimited || total <= w.grants[grant].issued)
  }

  predicate BudgetCovers(w: Work, cs: seq<Checkpoint>, budget: Id)
  {
    && budget in w.budgets
    && var added := OfBudget(w.meters, w.grants, cs, budget);
    w.budgets[budget].used + added <= MAX_INT64 && (w.budgets[budget].unlimited || added <= w.budgets[budget].reserved)
  }

  predicate TotalsCount(w: Work, cs: seq<Checkpoint>, c: Checkpoint)
  {
    Growth(w.meters, c) > 0 ==>
      UpOf(w.meters, cs, (c.client, c.term)) <= MAX_INT64 && DownOf(w.meters, cs, (c.client, c.term)) <= MAX_INT64
  }

  predicate FitsIn(w: Work, cs: seq<Checkpoint>, c: Checkpoint)
  {
    && Readable(w, c) && GrantCovers(w, cs, c.grant) && TotalsCount(w, cs, c)
    && BudgetsCover(w, cs, w.grants[c.grant].budgets)
  }

  predicate BudgetsCover(w: Work, cs: seq<Checkpoint>, ids: set<Id>)
  {
    forall id :: id in ids ==> BudgetCovers(w, cs, id)
  }

  predicate AllFit(w: Work, cs: seq<Checkpoint>)
  {
    forall i :: 0 <= i < |cs| ==> FitsIn(w, cs, cs[i])
  }

  /** Rows never count below nothing. */
  predicate Counting(w: Work)
  {
    && (forall id :: id in w.grants ==> 0 <= w.grants[id].consumed)
    && (forall id :: id in w.budgets ==> 0 <= w.budgets[id].used)
  }

  predicate DistinctKeys(cs: seq<Checkpoint>)
  {
    forall i, j :: 0 <= i < j < |cs| ==> KeyOf(cs[i]) != KeyOf(cs[j])
  }

  // ----- what it leaves -----

  ghost predicate GrantsMoved(w: Work, v: Work, cs: seq<Checkpoint>)
  {
    && v.grants.Keys == w.grants.Keys
    && forall id :: id in w.grants ==>
      v.grants[id] == w.grants[id].(consumed := w.grants[id].consumed + OfGrant(w.meters, cs, id))
  }

  /** What a budget looks like with an amount spent from what it reserved. */
  predicate SpentBy(was: Budget, now: Budget, added: int)
  {
    now == was.(used := was.used + added, reserved := was.reserved - if was.unlimited then 0 else added)
  }

  ghost predicate BudgetsMoved(w: Work, v: Work, cs: seq<Checkpoint>)
  {
    && v.budgets.Keys == w.budgets.Keys
    && forall id :: id in w.budgets ==>
      SpentBy(w.budgets[id], v.budgets[id], OfBudget(w.meters, w.grants, cs, id))
  }

  ghost predicate MetersMoved(w: Work, v: Work, cs: seq<Checkpoint>)
  {
    && (forall i :: 0 <= i < |cs| ==>
      KeyOf(cs[i]) in v.meters && v.meters[KeyOf(cs[i])] == Meter(cs[i].grant, cs[i].uploaded, cs[i].downloaded))
    && forall k :: (forall i :: 0 <= i < |cs| ==> KeyOf(cs[i]) != k) ==>
         (k in v.meters <==> k in w.meters) && (k in w.meters ==> v.meters[k] == w.meters[k])
  }

  predicate Moves(w: Work, cs: seq<Checkpoint>, owner: (Id, Id))
  {
    exists i :: 0 <= i < |cs| && (cs[i].client, cs[i].term) == owner && Growth(w.meters, cs[i]) > 0
  }

  ghost predicate DeltasMoved(w: Work, v: Work, cs: seq<Checkpoint>)
  {
    && (forall o :: o in v.deltas <==> Moves(w, cs, o))
    && forall o :: TrafficAt(v.deltas, o) == Traffic(UpOf(w.meters, cs, o), DownOf(w.meters, cs, o))
  }

  ghost predicate Metered(w: Work, v: Work, cs: seq<Checkpoint>)
  {
    GrantsMoved(w, v, cs) && BudgetsMoved(w, v, cs) && MetersMoved(w, v, cs) && DeltasMoved(w, v, cs)
  }

  // ----- one reading more -----

  lemma OneMore(w: Work, cs: seq<Checkpoint>, c: Checkpoint, id: Id, o: (Id, Id))
    ensures OfGrant(w.meters, cs + [c], id) ==
      OfGrant(w.meters, cs, id) + (if c.grant == id then Growth(w.meters, c) else 0)
    ensures OfBudget(w.meters, w.grants, cs + [c], id) ==
      OfBudget(w.meters, w.grants, cs, id) + (if Linked(w.grants, c, id) then Growth(w.meters, c) else 0)
    ensures UpOf(w.meters, cs + [c], o) ==
      UpOf(w.meters, cs, o) + (if (c.client, c.term) == o then UpGrowth(w.meters, c) else 0)
    ensures DownOf(w.meters, cs + [c], o) ==
      DownOf(w.meters, cs, o) + (if (c.client, c.term) == o then DownGrowth(w.meters, c) else 0)
  {
    assert (cs + [c])[..|cs|] == cs && (cs + [c])[|cs|] == c;
  }

  lemma {:induction false} NeverNegative(w: Work, cs: seq<Checkpoint>, id: Id, o: (Id, Id))
    requires forall i :: 0 <= i < |cs| ==> Readable(w, cs[i])
    ensures 0 <= OfGrant(w.meters, cs, id) && 0 <= OfBudget(w.meters, w.grants, cs, id)
    ensures 0 <= UpOf(w.meters, cs, o) && 0 <= DownOf(w.meters, cs, o)
  {
    if cs != [] {
      NeverNegative(w, cs[..|cs| - 1], id, o);
      assert Readable(w, cs[|cs| - 1]);
    }
  }

  /** A reading that still fits once another was added fitted before. */
  lemma FittedBefore(w: Work, cs: seq<Checkpoint>, c: Checkpoint, d: Checkpoint)
    requires FitsIn(w, cs + [c], d) && Readable(w, c)
    ensures FitsIn(w, cs, d)
  {
    OneMore(w, cs, c, d.grant, (d.client, d.term));
    forall id | id in w.grants[d.grant].budgets ensures BudgetCovers(w, cs, id) {
      assert BudgetCovers(w, cs + [c], id);
      OneMore(w, cs, c, id, (d.client, d.term));
    }
  }

  /** One that fitted before, and the new one fitting, still fits. */
  lemma FitsStill(w: Work, cs: seq<Checkpoint>, c: Checkpoint, d: Checkpoint)
    requires FitsIn(w, cs, d) && FitsIn(w, cs + [c], c)
    ensures FitsIn(w, cs + [c], d)
  {
    OneMore(w, cs, c, d.grant, (d.client, d.term));
    forall id | id in w.grants[d.grant].budgets ensures BudgetCovers(w, cs + [c], id) {
      assert BudgetCovers(w, cs, id);
      OneMore(w, cs, c, id, (d.client, d.term));
    }
  }

  /** Fitting, one reading at a time. */
  lemma AllFitOneMore(w: Work, cs: seq<Checkpoint>, c: Checkpoint)
    ensures AllFit(w, cs + [c]) <==> AllFit(w, cs) && FitsIn(w, cs + [c], c)
  {
    var more := cs + [c];
    assert more[|cs|] == c && forall i :: 0 <= i < |cs| ==> more[i] == cs[i];
    if AllFit(w, more) {
      assert FitsIn(w, more, more[|cs|]);
      forall i | 0 <= i < |cs| ensures FitsIn(w, cs, cs[i]) {
        assert FitsIn(w, more, more[i]);
        FittedBefore(w, cs, c, cs[i]);
      }
    }
    if AllFit(w, cs) && FitsIn(w, more, c) {
      forall i | 0 <= i < |more| ensures FitsIn(w, more, more[i]) {
        if i < |cs| {
          FitsStill(w, cs, c, cs[i]);
        }
      }
    }
  }

  // ----- one checkpoint, on what the earlier ones left -----

  lemma UnreadMeter(w: Work, v: Work, cs: seq<Checkpoint>, c: Checkpoint)
    requires MetersMoved(w, v, cs) && forall i :: 0 <= i < |cs| ==> KeyOf(cs[i]) != KeyOf(c)
    ensures MeterAt(v.meters, KeyOf(c)) == MeterAt(w.meters, KeyOf(c))
    ensures c.uploaded - MeterAt(v.meters, KeyOf(c)).uploaded == UpGrowth(w.meters, c)
    ensures c.downloaded - MeterAt(v.meters, KeyOf(c)).downloaded == DownGrowth(w.meters, c)
  {
  }

  /** The checks of one reading, on the rows the earlier ones left. */
  predicate Passes(v: Work, c: Checkpoint, up: int, down: int)
    requires c.grant in v.grants && v.grants[c.grant].budgets <= v.budgets.Keys
  {
    var g := v.grants[c.grant];
    && g.client == c.client && g.term == c.term && g.runtime == c.meter
    && 0 <= up && 0 <= down && up + down <= MAX_INT64 && TotalsAllow(v, c, up, down)
    && GrantTakes(g, up + down) && BudgetsTake(v, g.budgets, up + down)
  }

  predicate BudgetsTake(v: Work, ids: set<Id>, delta: int)
    requires ids <= v.budgets.Keys
  {
    forall id :: id in ids ==> Takes(v.budgets[id], delta)
  }

  lemma CheckpointPasses(w: Work, v: Work, cs: seq<Checkpoint>, c: Checkpoint)
    requires MetersMoved(w, v, cs) && forall i :: 0 <= i < |cs| ==> KeyOf(cs[i]) != KeyOf(c)
    requires c.grant in v.grants && v.grants[c.grant].budgets <= v.budgets.Keys
    ensures ApplyCheckpoint(v, c).Ok? <==> Passes(v, c, UpGrowth(w.meters, c), DownGrowth(w.meters, c))
  {
    UnreadMeter(w, v, cs, c);
  }

  lemma GrantPasses(w: Work, v: Work, cs: seq<Checkpoint>, c: Checkpoint)
    requires GrantsMoved(w, v, cs) && c.grant in w.grants && Counting(w) && 0 <= Growth(w.meters, c)
    requires forall i :: 0 <= i < |cs| ==> Readable(w, cs[i])
    ensures GrantTakes(v.grants[c.grant], Growth(w.meters, c)) <==> GrantCovers(w, cs + [c], c.grant)
  {
    OneMore(w, cs, c, c.grant, (0, 0));
    NeverNegative(w, cs, c.grant, (0, 0));
  }

  lemma BudgetPasses(w: Work, v: Work, cs: seq<Checkpoint>, c: Checkpoint, id: Id)
    requires BudgetsMoved(w, v, cs) && Linked(w.grants, c, id) && id in w.budgets && Counting(w)
    requires 0 <= Growth(w.meters, c) && forall i :: 0 <= i < |cs| ==> Readable(w, cs[i])
    ensures Takes(v.budgets[id], Growth(w.meters, c)) <==> BudgetCovers(w, cs + [c], id)
  {
    OneMore(w, cs, c, id, (0, 0));
    NeverNegative(w, cs, id, (0, 0));
    assert SpentBy(w.budgets[id], v.budgets[id], OfBudget(w.meters, w.grants, cs, id));
  }

  lemma BudgetsPass(w: Work, v: Work, cs: seq<Checkpoint>, c: Checkpoint)
    requires BudgetsMoved(w, v, cs) && Counting(w) && 0 <= Growth(w.meters, c)
    requires c.grant in w.grants && w.grants[c.grant].budgets <= w.budgets.Keys
    requires forall i :: 0 <= i < |cs| ==> Readable(w, cs[i])
    ensures BudgetsTake(v, w.grants[c.grant].budgets, Growth(w.meters, c)) <==>
      BudgetsCover(w, cs + [c], w.grants[c.grant].budgets)
  {
    forall id | id in w.grants[c.grant].budgets
      ensures Takes(v.budgets[id], Growth(w.meters, c)) <==> BudgetCovers(w, cs + [c], id)
    {
      BudgetPasses(w, v, cs, c, id);
    }
  }

  lemma TotalsPass(w: Work, v: Work, cs: seq<Checkpoint>, c: Checkpoint)
    requires DeltasMoved(w, v, cs) && 0 <= UpGrowth(w.meters, c) && 0 <= DownGrowth(w.meters, c)
    requires forall i :: 0 <= i < |cs| ==> Readable(w, cs[i])
    ensures TotalsAllow(v, c, UpGrowth(w.meters, c), DownGrowth(w.meters, c)) <==> TotalsCount(w, cs + [c], c)
  {
    var o := (c.client, c.term);
    OneMore(w, cs, c, c.grant, o);
    NeverNegative(w, cs, c.grant, o);
    assert TrafficAt(v.deltas, o) == Traffic(UpOf(w.meters, cs, o), DownOf(w.meters, cs, o));
  }

  /** The totals of a term still count with one more reading. */
  predicate TotalsAllow(v: Work, c: Checkpoint, up: int, down: int)
  {
    var total := TrafficAt(v.deltas, (c.client, c.term));
    up + down == 0 || (!Exceeds(total.uploaded, up) && !Exceeds(total.downloaded, down))
  }

  /** Passing and fitting, part by part. */
  lemma PartsDecide(w: Work, v: Work, cs: seq<Checkpoint>, c: Checkpoint)
    requires c.grant in w.grants && c.grant in v.grants && v.grants[c.grant].budgets <= v.budgets.Keys
    requires v.grants[c.grant] == w.grants[c.grant].(consumed := v.grants[c.grant].consumed)
    requires Readable(w, c) ==>
      && (GrantTakes(v.grants[c.grant], Growth(w.meters, c)) <==> GrantCovers(w, cs, c.grant))
      && (BudgetsTake(v, v.grants[c.grant].budgets, Growth(w.meters, c)) <==>
        BudgetsCover(w, cs, w.grants[c.grant].budgets))
      && (TotalsAllow(v, c, UpGrowth(w.meters, c), DownGrowth(w.meters, c)) <==> TotalsCount(w, cs, c))
    ensures Passes(v, c, UpGrowth(w.meters, c), DownGrowth(w.meters, c)) <==> FitsIn(w, cs, c)
  {
  }

  /** The next reading passes its checks exactly when it fits beside the earlier ones. */
  lemma NextFits(w: Work, v: Work, cs: seq<Checkpoint>, c: Checkpoint)
    requires GrantsMoved(w, v, cs) && BudgetsMoved(w, v, cs) && DeltasMoved(w, v, cs) && Counting(w)
    requires forall i :: 0 <= i < |cs| ==> Readable(w, cs[i])
    requires c.grant in w.grants && w.grants[c.grant].budgets <= w.budgets.Keys
    ensures Passes(v, c, UpGrowth(w.meters, c), DownGrowth(w.meters, c)) <==> FitsIn(w, cs + [c], c)
  {
    if Readable(w, c) {
      GrantPasses(w, v, cs, c);
      TotalsPass(w, v, cs, c);
      BudgetsPass(w, v, cs, c);
    }
    PartsDecide(w, v, cs + [c], c);
  }

  /** What one accepted reading does to the rows. */
  ghost predicate Stepped(v: Work, after: Work, c: Checkpoint, up: int, down: int)
  {
    && c.grant in v.grants && v.grants[c.grant].client == c.client && v.grants[c.grant].term == c.term
    && 0 <= up && 0 <= down
    && after.grants == v.grants[c.grant := v.grants[c.grant].(consumed := v.grants[c.grant].consumed + up + down)]
    && after.budgets == SpendIn(v.budgets, v.grants[c.grant].budgets, up + down)
    && after.meters == v.meters[KeyOf(c) := Meter(c.grant, c.uploaded, c.downloaded)]
    && after.deltas == if up + down == 0 then v.deltas else v.deltas[(c.client, c.term) :=
      AddTraffic(TrafficAt(v.deltas, (c.client, c.term)), up, down)]
  }

  lemma AcceptedSteps(w: Work, v: Work, cs: seq<Checkpoint>, c: Checkpoint)
    requires MetersMoved(w, v, cs) && forall i :: 0 <= i < |cs| ==> KeyOf(cs[i]) != KeyOf(c)
    requires c.grant in v.grants && v.grants[c.grant].budgets <= v.budgets.Keys && ApplyCheckpoint(v, c).Ok?
    ensures Stepped(v, ApplyCheckpoint(v, c).value, c, UpGrowth(w.meters, c), DownGrowth(w.meters, c))
  {
    UnreadMeter(w, v, cs, c);
  }

  lemma GrantsMoveOn(w: Work, v: Work, after: Work, cs: seq<Checkpoint>, c: Checkpoint)
    requires GrantsMoved(w, v, cs) && Stepped(v, after, c, UpGrowth(w.meters, c), DownGrowth(w.meters, c))
    ensures GrantsMoved(w, after, cs + [c])
  {
    forall id | id in w.grants
      ensures after.grants[id] == w.grants[id].(consumed := w.grants[id].consumed + OfGrant(w.meters, cs + [c], id))
    {
      OneMore(w, cs, c, id, (c.client, c.term));
    }
  }

  lemma BudgetsMoveOn(w: Work, v: Work, after: Work, cs: seq<Checkpoint>, c: Checkpoint)
    requires GrantsMoved(w, v, cs) && BudgetsMoved(w, v, cs)
    requires Stepped(v, after, c, UpGrowth(w.meters, c), DownGrowth(w.meters, c))
    ensures BudgetsMoved(w, after, cs + [c])
  {
    forall id | id in w.budgets
      ensures SpentBy(w.budgets[id], after.budgets[id], OfBudget(w.meters, w.grants, cs + [c], id))
    {
      OneMore(w, cs, c, id, (c.client, c.term));
      SpentMore(w.budgets[id], v.budgets[id], OfBudget(w.meters, w.grants, cs, id), Growth(w.meters, c));
      assert Linked(w.grants, c, id) <==> id in v.grants[c.grant].budgets;
    }
  }

  lemma SpentMore(was: Budget, mid: Budget, a: int, b: int)
    requires SpentBy(was, mid, a)
    ensures SpentBy(was, Spent(mid, b), a + b)
  {
  }

  lemma MetersMoveOn(w: Work, v: Work, after: Work, cs: seq<Checkpoint>, c: Checkpoint)
    requires MetersMoved(w, v, cs) && forall i :: 0 <= i < |cs| ==> KeyOf(cs[i]) != KeyOf(c)
    requires after.meters == v.meters[KeyOf(c) := Meter(c.grant, c.uploaded, c.downloaded)]
    ensures MetersMoved(w, after, cs + [c])
  {
    var more := cs + [c];
    forall i | 0 <= i < |more|
      ensures KeyOf(more[i]) in after.meters
      ensures after.meters[KeyOf(more[i])] == Meter(more[i].grant, more[i].uploaded, more[i].downloaded)
    {
      assert i < |cs| ==> more[i] == cs[i];
    }
    forall k | forall i :: 0 <= i < |more| ==> KeyOf(more[i]) != k
      ensures (k in after.meters <==> k in w.meters) && (k in w.meters ==> after.meters[k] == w.meters[k])
    {
      assert KeyOf(more[|cs|]) != k;
      forall i | 0 <= i < |cs| ensures KeyOf(cs[i]) != k {
        assert more[i] == cs[i];
      }
    }
  }

  lemma MovesOneMore(w: Work, cs: seq<Checkpoint>, c: Checkpoint, o: (Id, Id))
    ensures Moves(w, cs + [c], o) <==> Moves(w, cs, o) || ((c.client, c.term) == o && Growth(w.meters, c) > 0)
  {
    var more := cs + [c];
    assert more[|cs|] == c && forall i :: 0 <= i < |cs| ==> more[i] == cs[i];
    if Moves(w, cs, o) {
      var i :| 0 <= i < |cs| && (cs[i].client, cs[i].term) == o && Growth(w.meters, cs[i]) > 0;
      assert more[i] == cs[i];
    }
  }

  lemma DeltasMoveOn(w: Work, v: Work, after: Work, cs: seq<Checkpoint>, c: Checkpoint)
    requires DeltasMoved(w, v, cs) && Stepped(v, after, c, UpGrowth(w.meters, c), DownGrowth(w.meters, c))
    ensures DeltasMoved(w, after, cs + [c])
  {
    forall o
      ensures o in after.deltas <==> Moves(w, cs + [c], o)
      ensures TrafficAt(after.deltas, o) == Traffic(UpOf(w.meters, cs + [c], o), DownOf(w.meters, cs + [c], o))
    {
      MovesOneMore(w, cs, c, o);
      OneMore(w, cs, c, c.grant, o);
      assert TrafficAt(v.deltas, o) == Traffic(UpOf(w.meters, cs, o), DownOf(w.meters, cs, o));
    }
  }

  /** And what it leaves is what all of them add up to. */
  lemma NextIsMetered(w: Work, v: Work, cs: seq<Checkpoint>, c: Checkpoint)
    requires Metered(w, v, cs) && forall i :: 0 <= i < |cs| ==> KeyOf(cs[i]) != KeyOf(c)
    requires c.grant in v.grants && v.grants[c.grant].budgets <= v.budgets.Keys && ApplyCheckpoint(v, c).Ok?
    ensures Metered(w, ApplyCheckpoint(v, c).value, cs + [c])
  {
    var after := ApplyCheckpoint(v, c).value;
    AcceptedSteps(w, v, cs, c);
    GrantsMoveOn(w, v, after, cs, c);
    BudgetsMoveOn(w, v, after, cs, c);
    MetersMoveOn(w, v, after, cs, c);
    DeltasMoveOn(w, v, after, cs, c);
  }

  /** A whole batch is taken exactly when its totals fit, and leaves its totals. */
  lemma {:induction false} BatchAddsUp(w: Work, node: Id, installation: Id, cs: seq<Checkpoint>)
    requires InScope(w.budgets, w.grants, node, installation, cs) && DistinctKeys(cs) && Counting(w)
      && w.deltas == map[]
    ensures var r := ApplyCheckpoints(w, node, installation, cs);
      (r.Ok? <==> AllFit(w, cs)) && (r.Ok? ==> Metered(w, r.value, cs))
    decreases |cs|
  {
    if cs == [] {
      NothingMoves(w);
    } else {
      var init, c := cs[..|cs| - 1], cs[|cs| - 1];
      assert cs == init + [c];
      BatchAddsUp(w, node, installation, init);
      AllFitOneMore(w, init, c);
      var r := ApplyCheckpoints(w, node, installation, init);
      assert KnownHere(w.budgets, w.grants, node, installation, c.grant);
      if r.Ok? {
        FittingIsReadable(w, init);
        CheckpointPasses(w, r.value, init, c);
        NextFits(w, r.value, init, c);
        if ApplyCheckpoint(r.value, c).Ok? {
          NextIsMetered(w, r.value, init, c);
        }
      }
    }
  }

  lemma NothingMoves(w: Work)
    requires w.deltas == map[]
    ensures Metered(w, w, [])
  {
  }

  // ----- the totals of the terms -----

  function UsedBy(usage: map<Id, Traffic>, term: Id): Traffic
  {
    if term in usage then usage[term] else Traffic(0, 0)
  }

  /** A known term that the batch moves for its own client. */
  predicate TermMoves(terms: map<Id, Term>, w: Work, cs: seq<Checkpoint>, term: Id)
  {
    term in terms && Moves(w, cs, (terms[term].client, term))
  }

  /** No term moves for two clients or for another than its own. */
  ghost predicate OwnersAgree(terms: map<Id, Term>, w: Work, cs: seq<Checkpoint>)
  {
    && (forall o, p :: Moves(w, cs, o) && Moves(w, cs, p) && o.1 == p.1 ==> o.0 == p.0)
    && (forall o :: Moves(w, cs, o) && o.1 in terms ==> terms[o.1].client == o.0)
  }

  /** Every total of a term that moves still counts. */
  ghost predicate TotalsFit(terms: map<Id, Term>, usage: map<Id, Traffic>, w: Work, cs: seq<Checkpoint>)
  {
    forall t :: TermMoves(terms, w, cs, t) ==>
      && UsedBy(usage, t).uploaded + UpOf(w.meters, cs, (terms[t].client, t)) <= MAX_INT64
      && UsedBy(usage, t).downloaded + DownOf(w.meters, cs, (terms[t].client, t)) <= MAX_INT64
  }

  ghost predicate TermsTake(terms: map<Id, Term>, usage: map<Id, Traffic>, w: Work, cs: seq<Checkpoint>)
  {
    OwnersAgree(terms, w, cs) && TotalsFit(terms, usage, w, cs)
  }

  /** Every known term that moves has the batch's bytes added to its totals. */
  ghost predicate TermsMoved(terms: map<Id, Term>, was: map<Id, Traffic>, now: map<Id, Traffic>, w: Work,
      cs: seq<Checkpoint>)
  {
    && (forall t :: t in now <==> t in was || TermMoves(terms, w, cs, t))
    && forall t :: t in now ==>
      now[t] == if TermMoves(terms, w, cs, t)
        then Traffic(UsedBy(was, t).uploaded + UpOf(w.meters, cs, (terms[t].client, t)),
          UsedBy(was, t).downloaded + DownOf(w.meters, cs, (terms[t].client, t)))
        else was[t]
  }

  predicate UsageCounts(usage: map<Id, Traffic>)
  {
    forall t :: t in usage ==> 0 <= usage[t].uploaded && 0 <= usage[t].downloaded
  }

  lemma CountedIsMoved(terms: map<Id, Term>, usage: map<Id, Traffic>, w: Work, v: Work, cs: seq<Checkpoint>, t: Id)
    requires DeltasMoved(w, v, cs)
    ensures Counted(terms, v.deltas, t) <==> TermMoves(terms, w, cs, t)
    ensures TermMoves(terms, w, cs, t) ==>
      v.deltas[(terms[t].client, t)] ==
        Traffic(UpOf(w.meters, cs, (terms[t].client, t)), DownOf(w.meters, cs, (terms[t].client, t)))
  {
    if TermMoves(terms, w, cs, t) {
      var o := (terms[t].client, t);
      assert o in v.deltas;
      assert TrafficAt(v.deltas, o) == Traffic(UpOf(w.meters, cs, o), DownOf(w.meters, cs, o));
    }
  }

  lemma TotalIsTaken(terms: map<Id, Term>, usage: map<Id, Traffic>, w: Work, v: Work, cs: seq<Checkpoint>, t: Id)
    requires DeltasMoved(w, v, cs) && UsageCounts(usage) && TermMoves(terms, w, cs, t)
    requires forall i :: 0 <= i < |cs| ==> Readable(w, cs[i])
    ensures Counted(terms, v.deltas, t)
    ensures TotalFits(terms, usage, v.deltas, t) <==>
      && UsedBy(usage, t).uploaded + UpOf(w.meters, cs, (terms[t].client, t)) <= MAX_INT64
      && UsedBy(usage, t).downloaded + DownOf(w.meters, cs, (terms[t].client, t)) <= MAX_INT64
  {
    CountedIsMoved(terms, usage, w, v, cs, t);
    NeverNegative(w, cs, 0, (terms[t].client, t));
  }

  ghost predicate DeltasAgree(terms: map<Id, Term>, deltas: map<(Id, Id), Traffic>)
  {
    && (forall a, b :: a in deltas && b in deltas && a.1 == b.1 ==> a.0 == b.0)
    && (forall k :: k in deltas && k.1 in terms ==> terms[k.1].client == k.0)
  }

  ghost predicate DeltasFit(terms: map<Id, Term>, usage: map<Id, Traffic>, deltas: map<(Id, Id), Traffic>)
  {
    forall t :: t in terms && Counted(terms, deltas, t) ==> TotalFits(terms, usage, deltas, t)
  }

  lemma RecordIsDecided(terms: map<Id, Term>, usage: map<Id, Traffic>, deltas: map<(Id, Id), Traffic>)
    ensures RecordTermUsage(terms, usage, deltas) ==
      if !DeltasAgree(terms, deltas) then Err(Scope)
      else if !DeltasFit(terms, usage, deltas) then Err(Error.Budget)
      else Ok(TotalsAfter(terms, usage, deltas))
  {
  }

  lemma OwnersAreTaken(terms: map<Id, Term>, w: Work, v: Work, cs: seq<Checkpoint>)
    requires DeltasMoved(w, v, cs)
    ensures DeltasAgree(terms, v.deltas) <==> OwnersAgree(terms, w, cs)
  {
  }

  lemma TotalsAreTaken(terms: map<Id, Term>, usage: map<Id, Traffic>, w: Work, v: Work, cs: seq<Checkpoint>)
    requires DeltasMoved(w, v, cs) && UsageCounts(usage) && forall i :: 0 <= i < |cs| ==> Readable(w, cs[i])
    ensures DeltasFit(terms, usage, v.deltas) <==> TotalsFit(terms, usage, w, cs)
  {
    forall t ensures Counted(terms, v.deltas, t) <==> TermMoves(terms, w, cs, t) {
      CountedIsMoved(terms, usage, w, v, cs, t);
    }
    forall t | TermMoves(terms, w, cs, t)
      ensures Counted(terms, v.deltas, t)
      ensures TotalFits(terms, usage, v.deltas, t) <==>
        && UsedBy(usage, t).uploaded + UpOf(w.meters, cs, (terms[t].client, t)) <= MAX_INT64
        && UsedBy(usage, t).downloaded + DownOf(w.meters, cs, (terms[t].client, t)) <= MAX_INT64
    {
      TotalIsTaken(terms, usage, w, v, cs, t);
    }
  }

  lemma TermsAreTaken(terms: map<Id, Term>, usage: map<Id, Traffic>, w: Work, v: Work, cs: seq<Checkpoint>)
    requires DeltasMoved(w, v, cs) && UsageCounts(usage) && forall i :: 0 <= i < |cs| ==> Readable(w, cs[i])
    ensures RecordTermUsage(terms, usage, v.deltas).Ok? <==> TermsTake(terms, usage, w, cs)
    ensures RecordTermUsage(terms, usage, v.deltas).Ok? ==>
      RecordTermUsage(terms, usage, v.deltas).value == TotalsAfter(terms, usage, v.deltas)
  {
    RecordIsDecided(terms, usage, v.deltas);
    OwnersAreTaken(terms, w, v, cs);
    TotalsAreTaken(terms, usage, w, v, cs);
  }

  lemma TermsAreMoved(terms: map<Id, Term>, usage: map<Id, Traffic>, w: Work, v: Work, cs: seq<Checkpoint>)
    requires DeltasMoved(w, v, cs)
    ensures TermsMoved(terms, usage, TotalsAfter(terms, usage, v.deltas), w, cs)
  {
    var now := TotalsAfter(terms, usage, v.deltas);
    forall t ensures t in now <==> t in usage || TermMoves(terms, w, cs, t) {
      CountedIsMoved(terms, usage, w, v, cs, t);
    }
    forall t | t in now
      ensures now[t] == if TermMoves(terms, w, cs, t)
        then Traffic(UsedBy(usage, t).uploaded + UpOf(w.meters, cs, (terms[t].client, t)),
          UsedBy(usage, t).downloaded + DownOf(w.meters, cs, (terms[t].client, t)))
        else usage[t]
    {
      CountedIsMoved(terms, usage, w, v, cs, t);
    }
  }

  // ----- ingesting a batch -----

  predicate WellBatched(b: Batch)
  {
    && b.node != 0 && b.installation != 0 && 1 <= b.sequence <= MAX_INT64 && 1 <= |b.checkpoints| <= 4096
    && (forall i :: 0 <= i < |b.checkpoints| ==>
      && var c := b.checkpoints[i];
      && c.grant != 0 && c.client != 0 && c.term != 0 && c.incarnation != 0 && 1 <= |c.meter| <= 128
      && c.observed > 0 && c.uploaded <= MAX_INT64 && c.downloaded <= MAX_INT64)
    && forall i, j :: 0 <= i < j < |b.checkpoints| ==>
      || b.checkpoints[i].grant != b.checkpoints[j].grant || b.checkpoints[i].meter != b.checkpoints[j].meter
      || b.checkpoints[i].incarnation != b.checkpoints[j].incarnation
  }

  /** The sequence a node was last acknowledged, and what that batch was. */
  function LastSequence(s: State, b: Batch): int
  {
    if (b.node, b.installation) in s.cursors then s.cursors[(b.node, b.installation)].sequence else 0
  }

  function LastBatch(s: State, b: Batch): Option<Batch>
  {
    if (b.node, b.installation) in s.cursors then s.cursors[(b.node, b.installation)].last else None
  }

  function Before(s: State): Work
  {
    Work(s.budgets, s.grants, s.meters, map[])
  }

  /** Every reading is of a grant of the reporting node, linked to known budgets. */
  predicate Reports(s: State, b: Batch)
  {
    forall i :: 0 <= i < |b.checkpoints| ==>
      && b.checkpoints[i].grant in s.grants
      && var g := s.grants[b.checkpoints[i].grant];
      && g.node == b.node && g.installation == b.installation && g.budgets != {} && g.budgets <= s.budgets.Keys
  }

  ghost predicate MayIngest(s: State, b: Batch)
  {
    Reports(s, b) && AllFit(Before(s), b.checkpoints) && TermsTake(s.terms, s.usage, Before(s), b.checkpoints)
  }

  /** What an ingested batch leaves: its totals on grants, budgets and terms, its readings
      on the meters, and itself at the cursor of its node. */
  ghost predicate Ingested(s: State, t: State, b: Batch)
  {
    && t == s.(budgets := t.budgets, grants := t.grants, meters := t.meters, usage := t.usage,
      cursors := s.cursors[(b.node, b.installation) := Cursor(b.sequence, Some(b))])
    && var w, v, cs := Before(s), Before(t), b.checkpoints;
    && GrantsMoved(w, v, cs) && BudgetsMoved(w, v, cs) && MetersMoved(w, v, cs)
    && TermsMoved(s.terms, s.usage, t.usage, w, cs)
  }

  predicate StoreCounts(s: State)
  {
    Counting(Before(s)) && UsageCounts(s.usage)
  }

  /** In every reachable ledger rows count from nothing. */
  lemma InvariantCounts(s: State)
    requires LedgerRuns.Inv(s)
    ensures StoreCounts(s)
  {
    forall id | id in s.grants ensures 0 <= s.grants[id].consumed {
      assert LedgerRuns.GrantOk(s.grants[id], s.budgets);
    }
  }

  /** A batch that was ingested before is acknowledged with the sequence reached, unless it
      is the last one with other contents; the next one is ingested exactly when its totals
      fit; any other is refused. Whatever is refused changes nothing. */
  ghost predicate IngestDone(s: State, t: State, b: Batch, guard: Check, r: Result<int>)
  {
    var at := LastSequence(s, b);
    && (r.Err? ==> t == s)
    && (r.Ok? ==> WellBatched(b) && guard == Pass && b.sequence <= at + 1)
    && (r.Ok? && b.sequence <= at ==> t == s && r.value == at)
    && (r.Ok? && b.sequence == at + 1 ==> r.value == b.sequence)
    && (WellBatched(b) && guard == Pass && b.sequence <= at ==>
      (r.Ok? <==> b.sequence < at || LastBatch(s, b) == Some(b)))
    && (StoreCounts(s) && WellBatched(b) && guard == Pass && b.sequence == at + 1 ==>
      (r.Ok? <==> MayIngest(s, b)) && (r.Ok? ==> Ingested(s, t, b)))
  }

  lemma FittingIsReadable(w: Work, cs: seq<Checkpoint>)
    requires AllFit(w, cs)
    ensures forall i :: 0 <= i < |cs| ==> Readable(w, cs[i])
  {
    forall i | 0 <= i < |cs| ensures Readable(w, cs[i]) {
      assert FitsIn(w, cs, cs[i]);
    }
  }

  /** Once its readings were taken, the term totals decide a batch. */
  lemma TotalsDecide(s: State, b: Batch, v: Work)
    requires InScope(s.budgets, s.grants, b.node, b.installation, b.checkpoints) && UsageCounts(s.usage)
    requires ApplyCheckpoints(Before(s), b.node, b.installation, b.checkpoints) == Ok(v)
    requires DeltasMoved(Before(s), v, b.checkpoints)
    requires forall i :: 0 <= i < |b.checkpoints| ==> Readable(Before(s), b.checkpoints[i])
    ensures PlanBatch(s, b).Ok? <==> TermsTake(s.terms, s.usage, Before(s), b.checkpoints)
    ensures PlanBatch(s, b).Ok? ==>
      && PlanBatch(s, b).value.0 == v
      && TermsMoved(s.terms, s.usage, PlanBatch(s, b).value.1, Before(s), b.checkpoints)
  {
    TermsAreTaken(s.terms, s.usage, Before(s), v, b.checkpoints);
    TermsAreMoved(s.terms, s.usage, Before(s), v, b.checkpoints);
  }

  lemma BatchIsDecided(s: State, b: Batch)
    requires WellBatched(b) && StoreCounts(s)
    ensures PlanBatch(s, b).Ok? <==> MayIngest(s, b)
    ensures PlanBatch(s, b).Ok? ==>
      && Metered(Before(s), PlanBatch(s, b).value.0, b.checkpoints)
      && TermsMoved(s.terms, s.usage, PlanBatch(s, b).value.1, Before(s), b.checkpoints)
  {
    ScopeIsReported(s, b);
    if InScope(s.budgets, s.grants, b.node, b.installation, b.checkpoints) {
      KeysAreDistinct(b);
      BatchAddsUp(Before(s), b.node, b.installation, b.checkpoints);
      var r := ApplyCheckpoints(Before(s), b.node, b.installation, b.checkpoints);
      if r.Ok? {
        FittingIsReadable(Before(s), b.checkpoints);
        TotalsDecide(s, b, r.value);
      }
    }
  }

  lemma KeysAreDistinct(b: Batch)
    requires WellBatched(b)
    ensures DistinctKeys(b.checkpoints)
  {
  }

  lemma ScopeIsReported(s: State, b: Batch)
    ensures InScope(s.budgets, s.grants, b.node, b.installation, b.checkpoints) <==> Reports(s, b)
  {
    if InScope(s.budgets, s.grants, b.node, b.installation, b.checkpoints) {
      forall i | 0 <= i < |b.checkpoints|
        ensures KnownHere(s.budgets, s.grants, b.node, b.installation, b.checkpoints[i].grant)
      {
      }
    }
  }

  lemma MeteredIsIngested(s: State, t: State, b: Batch, w: Work, usage: map<Id, Traffic>)
    requires Metered(Before(s), w, b.checkpoints) && TermsMoved(s.terms, s.usage, usage, Before(s), b.checkpoints)
    requires t == s.(budgets := w.budgets, grants := w.grants, meters := w.meters, usage := usage,
      cursors := s.cursors[(b.node, b.installation) := Cursor(b.sequence, Some(b))])
    ensures Ingested(s, t, b)
  {
  }

  lemma BatchedIsValid(b: Batch)
    ensures ValidBatch(b) <==> WellBatched(b)
  {
    forall i, j | 0 <= i < j < |b.checkpoints|
      ensures KeyOf(b.checkpoints[i]) != KeyOf(b.checkpoints[j]) <==>
        || b.checkpoints[i].grant != b.checkpoints[j].grant || b.checkpoints[i].meter != b.checkpoints[j].meter
        || b.checkpoints[i].incarnation != b.checkpoints[j].incarnation
    {
    }
  }

  /** The next batch of a node, as the cursor has it. */
  lemma NextBatchDoes(s: State, b: Batch)
    requires WellBatched(b) && StoreCounts(s)
    ensures ApplyBatch(s, b).Ok? <==> MayIngest(s, b)
    ensures ApplyBatch(s, b).Ok? ==> Ingested(s, ApplyBatch(s, b).value, b)
  {
    BatchIsDecided(s, b);
    if PlanBatch(s, b).Ok? {
      var (w, usage) := PlanBatch(s, b).value;
      MeteredIsIngested(s, ApplyBatch(s, b).value, b, w, usage);
    }
  }

  lemma IngestDoes(s: State, b: Batch, guard: Check)
    ensures var r := Ingest(s, b, guard);
      IngestDone(s, if r.Ok? then r.value.0 else s, b, guard, match r case Ok(v) => Ok(v.1) case Err(e) => Err(e))
  {
    BatchedIsValid(b);
    if StoreCounts(s) && WellBatched(b) {
      NextBatchDoes(s, b);
    }
  }
}
