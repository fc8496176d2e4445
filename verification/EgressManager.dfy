/** The egress manager: the ordered convergence of one row over a failing kernel,
    and the reconciliation of the whole host. */
module EgressManager {
  import opened Results
  import opened Egress
  import opened Diffs
  import opened EgressPlan
  import opened EgressKernel
  import opened EgressPass
  import opened EgressTraffic

  lemma HasMember(ids: set<int>)
    ensures ids == {} || exists id :: id in ids
  {
    if forall id: int :: id !in ids {
      assert ids == {};
    }
  }

  method Least(ids: set<int>) returns (low: int)
    requires ids != {}
    ensures low in ids && forall id :: id in ids ==> low <= id
  {
    HasMember(ids);
    low :| low in ids;
    var rest := ids - {low};
    while rest != {}
      invariant rest <= ids && low in ids && forall id :: id in ids && id !in rest ==> low <= id
    {
      HasMember(rest);
      var id :| id in rest;
      low, rest := if id < low then id else low, rest - {id};
    }
  }

  predicate HasRow(rows: seq<Row>, id: int)
  {
    exists r :: r in rows && r.id == id
  }

  /** What a host may still hold of an id: a rule at its priority, a route in its
      table, or a device it dialled. */
  predicate StillHolds(snap: Snapshot, id: int)
  {
    && 1 <= id <= 999
    && (|| (exists r :: r in snap.rules && r.priority == 31000 + id)
        || (exists r :: r in snap.routes && r.table == 30000 + id)
        || "pux" + Decimal(id) in snap.host.links || "paux" + Decimal(id) in snap.host.links)
  }

  predicate HeldByRule(rules: seq<Rule>, id: int)
  {
    exists r :: r in rules && PrioId(r.priority) == Some(id)
  }

  predicate HeldByRoute(routes: seq<Route>, id: int)
  {
    exists r :: r in routes && TableId(r.table) == Some(id)
  }

  predicate HeldByLink(links: set<string>, id: int)
  {
    exists l :: l in links && UplinkId(l) == Some(id)
  }

  /** A device name spells an uplink's id exactly when it is one of the two names the id prints to. */
  lemma UplinkNames(name: string, id: int)
    ensures UplinkId(name) == Some(id) <==>
      1 <= id <= 999 && (name == "pux" + Decimal(id) || name == "paux" + Decimal(id))
  {
    OwnedNamesRoundTrip(UPLINK_PREFIX, name, id);
    OwnedNamesRoundTrip(AWG_UPLINK_PREFIX, name, id);
    if OwnedId(UPLINK_PREFIX, name).Some? {
      OwnedNamesRoundTrip(UPLINK_PREFIX, name, OwnedId(UPLINK_PREFIX, name).value);
      assert name[1] == 'u';
    }
    if 1 <= id <= 999 && name == "paux" + Decimal(id) {
      assert name[1] == 'a';
    }
  }

  lemma HoldsMeans(snap: Snapshot, id: int)
    ensures StillHolds(snap, id) <==>
      HeldByRule(snap.rules, id) || HeldByRoute(snap.routes, id) || HeldByLink(snap.host.links, id)
  {
    if 1 <= id <= 999 {
      UplinkNames("pux" + Decimal(id), id);
      UplinkNames("paux" + Decimal(id), id);
    }
    if l :| l in snap.host.links && UplinkId(l) == Some(id) {
      UplinkNames(l, id);
    }
  }

  lemma TrafficFollows(b: Band, row: Row, host: Host, names: set<string>, done: bool)
    requires InBand(row.id) && Converged(b, row, host, names) && (done ==> Settled(b, row, host, names))
    ensures Isolated(b, row, host) && (done && NoForeign(b, row) ==> Routed(b, row, host))
  {
    ConvergedIsIsolated(b, row, host, names);
    if done && NoForeign(b, row) {
      SettledIsRouted(b, row, host, names);
    }
  }

  class Manager {
    const plane: Kernel

    constructor (plane: Kernel)
      ensures this.plane == plane
    {
      this.plane := plane;
    }

    /** The pass as it stands, from the state and the calls it started with. */
    ghost function Now(start: Run): Run
      reads plane
    {
      start.(trace := plane.trace, now := plane.View())
    }

    /** Removing the rule is what stops traffic, so it always comes first. */
    method RemoveRules(id: int, dels: seq<Rule>, live0: map<Family, int>, ghost own0: seq<Rule>, ghost start: Run)
      returns (live: map<Family, int>, failed: bool, ghost own: seq<Rule>)
      requires Picks(own0, plane.rules, r => OwnRule(id, r)) && Counts(live0, own0) && multiset(dels) <= multiset(own0)
      requires Safe(Now(start), id)
      modifies plane`rules, plane`trace
      ensures Picks(own, plane.rules, r => OwnRule(id, r)) && Counts(live, own)
      ensures Safe(Now(start), id)
      ensures !failed ==> multiset(own) + multiset(dels) == multiset(own0)
      ensures dels == [] ==> plane.trace == old(plane.trace) && !failed
    {
      live, failed, own := live0, false, own0;
      RemovingStarts(Now(start), id, own, live, dels);
      for i := 0 to |dels|
        invariant Removing(Now(start), id, own0, own, live, dels, i, failed)
        invariant plane.routes == old(plane.routes)
        invariant dels == [] ==> plane.trace == old(plane.trace) && !failed
      {
        ghost var run := Now(start);
        RemovingNext(run, id, own0, own, live, dels, i, failed);
        var o := plane.DelRule(dels[i]);
        if o != Done && o != NotInstalled {
          RemovingKeeps(run, id, own0, own, live, dels, i, failed);
          failed := true;
          continue;
        }
        RemovingTakes(run, id, own0, own, live, dels, i, failed);
        live := live[dels[i].family := live[dels[i].family] - 1];
        own := Without(own, dels[i]);
      }
      assert dels[..|dels|] == dels;
    }

    /** The blackholes go in before any rule may point at their table. */
    method Contain(id: int, list: seq<Route>, held: set<Family>, ghost start: Run)
        returns (contained: set<Family>, failed: bool)
      requires (forall r :: r in list ==> OwnHole(id, r)) && Contains(plane.routes, id, held)
      requires Safe(Now(start), id)
      modifies plane`routes, plane`trace
      ensures Safe(Now(start), id) && Grew(old(plane.routes), plane.routes, list, !failed)
      ensures Contains(plane.routes, id, contained)
      ensures !failed ==> contained >= held + FamiliesOf(list)
      ensures list == [] ==> plane.trace == old(plane.trace) && !failed
    {
      contained, failed := held, false;
      ContainingStarts(plane.routes, list, id, held);
      for i := 0 to |list|
        invariant Safe(Now(start), id)
          && Containing(old(plane.routes), plane.routes, list, i, id, held, contained, failed)
        invariant list == [] ==> plane.trace == old(plane.trace) && !failed
      {
        assert list[i] in list;
        ContainingNext(old(plane.routes), plane.routes, list, i, id, held, contained, failed);
        var o := AddRoute(id, list[i], start);
        if o != Done {
          failed := true;
          continue;
        }
        contained := contained + {list[i].family};
      }
      assert list[..|list|] == list;
    }

    /** One addition. */
    method AddRoute(id: int, r: Route, ghost start: Run) returns (o: Outcome)
      requires r.table == Table(id) && Safe(Now(start), id)
      modifies plane`routes, plane`trace
      ensures Safe(Now(start), id)
      ensures plane.routes == if o == Done then old(plane.routes) + multiset{r} else old(plane.routes)
    {
      ghost var run := Now(start);
      o := plane.AddRoute(r);
      if o == Done {
        AddingAdds(run, id, r);
      } else {
        IdleCall(run, id);
      }
    }

    /** Adds routes; a front whose device is not ready yet is no failure. */
    method AddRoutes(id: int, list: seq<Route>, fronts: bool, ghost start: Run) returns (failed: bool, done: bool)
      requires forall r :: r in list ==> r.table == Table(id)
      requires Safe(Now(start), id)
      modifies plane`routes, plane`trace
      ensures Safe(Now(start), id) && Grew(old(plane.routes), plane.routes, list, done)
      ensures (done ==> !failed) && (!fronts ==> failed == !done)
      ensures list == [] ==> plane.trace == old(plane.trace) && done
    {
      failed, done := false, true;
      assert plane.routes + multiset{} == plane.routes;
      for i := 0 to |list|
        invariant Safe(Now(start), id) && Grew(old(plane.routes), plane.routes, list[..i], done)
        invariant (done ==> !failed) && (!fronts ==> failed == !done)
        invariant list == [] ==> plane.trace == old(plane.trace) && done
      {
        assert list[i] in list;
        GrowsOneMore(old(plane.routes), plane.routes, list, i, done);
        var o := AddRoute(id, list[i], start);
        if o != Done {
          failed, done := failed || !(fronts && o == NotReady), false;
        }
      }
      assert list[..|list|] == list;
    }

    /** One removal; a route that is already gone is as good as removed. */
    method DropRoute(id: int, r: Route, ghost start: Run) returns (ok: bool)
      requires r in plane.routes && r.table == Table(id) && (OwnHole(id, r) ==> !HasRule(plane.rules, id, r.family))
      requires Safe(Now(start), id)
      modifies plane`routes, plane`trace
      ensures Safe(Now(start), id)
      ensures plane.routes == if ok then old(plane.routes) - multiset{r} else old(plane.routes)
    {
      ghost var run := Now(start);
      var o := plane.DelRoute(r);
      ok := o == Done || o == NotInstalled;
      if ok {
        DroppingDrops(run, id, r);
      } else {
        IdleCall(run, id);
      }
    }

    /** Removes fronts or throws: neither is what contains the table. */
    method RemoveRoutes(id: int, list: seq<Route>, ghost start: Run) returns (failed: bool)
      requires multiset(list) <= plane.routes && forall r :: r in list ==> r.table == Table(id) && !OwnHole(id, r)
      requires Safe(Now(start), id)
      modifies plane`routes, plane`trace
      ensures Safe(Now(start), id) && Shrank(old(plane.routes), plane.routes, list, !failed)
      ensures list == [] ==> plane.trace == old(plane.trace) && !failed
    {
      failed := false;
      assert list[0..] == list && plane.routes + multiset{} == plane.routes;
      for i := 0 to |list|
        invariant Safe(Now(start), id) && Shrank(old(plane.routes), plane.routes, list[..i], !failed)
          && multiset(list[i..]) <= plane.routes
        invariant list == [] ==> plane.trace == old(plane.trace) && !failed
      {
        assert list[i] in list;
        ShrinksOneMore(old(plane.routes), plane.routes, list, i, !failed);
        var ok := DropRoute(id, list[i], start);
        failed := failed || !ok;
      }
      assert list[..|list|] == list;
    }

    /** Installs rules, refusing one whose table has no blackhole of its family. */
    method InstallRules(id: int, adds: seq<Rule>, contained: set<Family>, live0: map<Family, int>,
        ghost own0: seq<Rule>, ghost start: Run)
      returns (live: map<Family, int>, failed: bool, refused: bool, ghost own: seq<Rule>)
      requires (forall r :: r in adds ==> OwnRule(id, r)) && Contains(plane.routes, id, contained)
      requires Picks(own0, plane.rules, r => OwnRule(id, r)) && Counts(live0, own0)
      requires Safe(Now(start), id)
      modifies plane`rules, plane`trace
      ensures Safe(Now(start), id) && Picks(own, plane.rules, r => OwnRule(id, r)) && Counts(live, own)
      ensures !failed && !refused ==> own == own0 + adds
      ensures refused ==> exists r :: r in adds && r.family !in contained
      ensures adds == [] ==> plane.trace == old(plane.trace) && !failed
    {
      live, failed, refused, own := live0, false, false, own0;
      InstallingStarts(Now(start), id, own, live, adds);
      for i := 0 to |adds|
        invariant Installing(Now(start), id, own0, own, live, adds, i, failed || refused)
        invariant refused ==> exists r :: r in adds && r.family !in contained
        invariant adds == [] ==> plane.trace == old(plane.trace) && !failed
      {
        ghost var run := Now(start);
        assert adds[i] in adds;
        if adds[i].family !in contained {
          InstallingMisses(run, id, own0, own, live, adds, i, failed || refused);
          refused := true;
          continue;
        }
        var o := plane.AddRule(adds[i]);
        if o != Done {
          InstallingMisses(run, id, own0, own, live, adds, i, failed || refused);
          failed := true;
          continue;
        }
        InstallingAdds(run, id, own0, own, live, adds, i, failed || refused);
        live := live[adds[i].family := live[adds[i].family] + 1];
        own := own + [adds[i]];
      }
      assert adds[..|adds|] == adds;
    }

    /** A blackhole goes last, and only once no rule of its family is left. */
    method Uncontain(id: int, list: seq<Route>, live: map<Family, int>, ghost own: seq<Rule>, ghost start: Run)
        returns (failed: bool, kept: bool)
      requires multiset(list) <= plane.routes && forall r :: r in list ==> OwnHole(id, r)
      requires Picks(own, plane.rules, r => OwnRule(id, r)) && Counts(live, own)
      requires Safe(Now(start), id)
      modifies plane`routes, plane`trace
      ensures Safe(Now(start), id) && Shrank(old(plane.routes), plane.routes, list, !failed && !kept)
      ensures kept <==> AnyLive(list, plane.rules, id)
      ensures Untouched(old(plane.routes), plane.routes, plane.rules, id)
      ensures list == [] ==> plane.trace == old(plane.trace) && !failed
    {
      failed, kept := false, false;
      assert list[0..] == list && plane.routes + multiset{} == plane.routes;
      for i := 0 to |list|
        invariant Safe(Now(start), id) && Shrank(old(plane.routes), plane.routes, list[..i], !failed && !kept)
          && multiset(list[i..]) <= plane.routes
        invariant kept <==> AnyLive(list[..i], plane.rules, id)
        invariant Untouched(old(plane.routes), plane.routes, plane.rules, id)
        invariant list == [] ==> plane.trace == old(plane.trace) && !failed
      {
        assert list[i] in list && OwnHole(id, list[i]);
        NoneLive(plane.rules, own, live, id, list[i].family);
        AnyLiveOneMore(list, i, plane.rules, id);
        ShrinksOneMore(old(plane.routes), plane.routes, list, i, !failed && !kept);
        if live[list[i].family] > 0 {
          kept := true;
          continue;
        }
        StaysUntouched(old(plane.routes), plane.routes, plane.rules, id, list[i]);
        var ok := DropRoute(id, list[i], start);
        failed := failed || !ok;
      }
      assert list[..|list|] == list;
    }

    /** The first half of a pass: rules out, then containment and exceptions in, then rules in. */
    method Build(id: int, c: Changes, h: Have, ghost start: Run)
        returns (live: map<Family, int>, failed: bool, refused: bool, ghost own: seq<Rule>)
      requires Owned(c, h, plane.View(), id) && Contains(plane.routes, id, FamiliesOf(h.holes))
      requires Safe(Now(start), id)
      modifies plane`rules, plane`routes, plane`trace
      ensures Safe(Now(start), id)
      ensures Picks(own, plane.rules, r => OwnRule(id, r)) && Counts(live, own)
      ensures old(plane.routes) <= plane.routes
      ensures !failed && !refused ==> multiset(own) + multiset(c.delRules) == multiset(h.rules) + multiset(c.addRules)
      ensures !failed && refused ==>
        exists r :: r in c.addRules && r.family !in FamiliesOf(h.holes) + FamiliesOf(c.addHoles)
      ensures !failed ==> plane.routes == old(plane.routes) + multiset(c.addHoles) + multiset(c.addThrows)
      ensures c.delRules == [] && c.addRules == [] && c.addHoles == [] && c.addThrows == [] ==>
        plane.trace == old(plane.trace) && !failed
    {
      live := CountLive(h.rules);
      var failed1, failed2, failed3, done3, failed4, contained;
      ghost var own1;
      live, failed1, own1 := RemoveRules(id, c.delRules, live, h.rules, start);
      contained, failed2 := Contain(id, c.addHoles, FamiliesOf(h.holes), start);
      ghost var routes := plane.routes;
      failed3, done3 := AddRoutes(id, c.addThrows, false, start);
      ContainsMore(routes, plane.routes, id, contained);
      live, failed4, refused, own := InstallRules(id, c.addRules, contained, live, own1, start);
      failed := failed1 || failed2 || failed3 || failed4;
    }

    /** The second half: fronts out and in, exceptions out, and last the containment. */
    method Release(id: int, c: Changes, live: map<Family, int>, ghost own: seq<Rule>, ghost start: Run)
        returns (failed: bool, kept: bool, done: bool)
      requires Releasable(c, plane.routes, id)
      requires Picks(own, plane.rules, r => OwnRule(id, r)) && Counts(live, own)
      requires Safe(Now(start), id)
      modifies plane`routes, plane`trace
      ensures Safe(Now(start), id)
      ensures kept <==> AnyLive(c.delHoles, plane.rules, id)
      ensures Guarded(old(plane.routes), plane.View(), id)
      ensures !failed && !kept ==> Released(old(plane.routes), plane.routes, c, done)
      ensures done ==> !failed
      ensures c.delFronts == [] && c.addFronts == [] && c.delThrows == [] && c.delHoles == [] ==>
        plane.trace == old(plane.trace) && !failed && done
    {
      ghost var r0 := plane.routes;
      var failed1 := RemoveRoutes(id, c.delFronts, start);
      ghost var r1 := plane.routes;
      KeepsOthers(c.delThrows, c.delFronts, r0, r1);
      KeepsOthers(c.delHoles, c.delFronts, r0, r1);
      var failed2, done2 := AddRoutes(id, c.addFronts, true, start);
      ghost var r2 := plane.routes;
      var failed3 := RemoveRoutes(id, c.delThrows, start);
      ghost var r3 := plane.routes;
      KeepsOthers(c.delHoles, c.delThrows, r2, r3);
      var failed4;
      failed4, kept := Uncontain(id, c.delHoles, live, own, start);
      failed, done := failed1 || failed2 || failed3 || failed4, done2 && !failed1 && !failed3 && !failed4;
      HalvesGuard(r0, r1, r2, r3, plane.View(), c, id);
      if !failed && !kept {
        AddUp(r0, r1, r2, r3, plane.routes, c, done);
      }
    }

    /** Both halves of a pass over its change lists. */
    method RunChanges(id: int, c: Changes, h: Have, ghost start: Run)
        returns (failed: bool, refused: bool, kept: bool, done: bool, ghost own: seq<Rule>)
      requires Owned(c, h, plane.View(), id) && Contains(plane.routes, id, FamiliesOf(h.holes))
      requires Safe(Now(start), id)
      modifies plane`rules, plane`routes, plane`trace
      ensures Safe(Now(start), id)
      ensures Picks(own, plane.rules, r => OwnRule(id, r))
      ensures PassLeaves(old(plane.routes), plane.View(), c, h, id, own, failed, refused, kept, done)
      ensures Guarded(old(plane.routes), plane.View(), id)
      ensures c == NO_CHANGES ==> plane.trace == old(plane.trace) && done
      ensures done ==> !failed
    {
      var failed1, failed2, live;
      ghost var b := plane.View();
      live, failed1, refused, own := Build(id, c, h, start);
      StillReleasable(c, h, b, plane.routes, id);
      failed2, kept, done := Release(id, c, live, own, start);
      failed, done := failed1 || failed2, done && !failed1;
    }

    method Apply(row: Row, w: Want, h: Have, c: Changes, ghost host: Host, ghost names: set<string>)
      returns (failed: bool, refused: bool, kept: bool, done: bool)
      requires ChangesFor(c, w, h) && Plans(w, row, host)
      requires OwnedRulePart(h, plane.rules, row.id) && OwnedRoutePart(h, plane.routes, row.id, DeviceOf(row), names)
      modifies plane`rules, plane`routes, plane`trace
      ensures Safe(Run(old(plane.View()), old(plane.trace), plane.trace, plane.View()), row.id)
      ensures PassResult(old(plane.View()), plane.View(), row, host, names, failed, refused, kept, done)
      ensures Settled(old(plane.View()), row, host, names) ==> plane.trace == old(plane.trace) && done
      ensures done ==> !failed
    {
      ghost var b, start := plane.View(), Run(plane.View(), plane.trace, plane.trace, plane.View());
      ChangesAreOwned(c, w, h, b, row, host, names);
      HeldAreContained(h, b.routes, row.id);
      NoCall(b, plane.trace, row.id);
      if Settled(b, row, host, names) {
        SettledNeedsNothing(c, w, h, b, row, host, names);
      }
      ghost var own;
      failed, refused, kept, done, own := RunChanges(row.id, c, h, start);
      PassOutcome(b, plane.View(), c, w, h, row, host, names, own, failed, refused, kept, done);
    }

    /** The four differences, in the order the source takes them. */
    method Differences(w: Want, h: Have) returns (c: Changes)
      ensures ChangesFor(c, w, h)
    {
      var addRules, delRules := Diff(w.rules, h.rules);
      var addHoles, delHoles := Diff(w.holes, h.holes);
      var addThrows, delThrows := Diff(w.throws, h.throws);
      var addFronts, delFronts := Diff(w.fronts, h.fronts);
      c := Changes(addRules, delRules, addHoles, delHoles, addThrows, delThrows, addFronts, delFronts);
    }

    /** Brings the row's device up or down, plans, and reads the host again once
        when a device just brought up is not in the snapshot yet. */
    method Prepare(snap: Snapshot, row: Row)
        returns (seen: Snapshot, w: Want, planProblem: bool, provisionProblem: bool)
      requires Agrees(multiset(snap.rules), multiset(snap.routes), plane.View(), row.id)
      modifies plane`host, plane`hosts
      ensures Plans(w, row, seen.host) && (planProblem <==> row.enable && row.fill.None?)
      ensures Agrees(multiset(seen.rules), multiset(seen.routes), plane.View(), row.id)
      ensures seen == snap || (row.enable && row.provisions && seen.host == plane.host)
      ensures Moved(plane.hosts, old(plane.hosts), plane.host, old(plane.host), row.provisions)
    {
      var provisioned := false;
      provisionProblem := false;
      if row.provisions {
        var ok := plane.Provision();
        provisioned, provisionProblem := row.enable && ok, !ok;
      }
      seen := snap;
      w, planProblem := Plan(row, seen.host);
      if provisioned && w.device != "" && w.fronts == [] {
        var again := plane.Snapshot();
        if again.Some? {
          seen := again.value;
          w, planProblem := Plan(row, seen.host);
        }
      }
    }

    /** One pass over one row. Every call is a safe step. A pass that reports
        nothing leaves the row converged on the devices it saw. */
    method Converge(snap: Snapshot, row: Row, names: set<string>) returns (report: Report, ghost host: Host)
      requires InBand(row.id) ==> Agrees(multiset(snap.rules), multiset(snap.routes), plane.View(), row.id)
      modifies plane
      ensures report.idProblem == !InBand(row.id)
        && (report.idProblem ==> plane.trace == old(plane.trace) && plane.View() == old(plane.View()))
      ensures Safe(Run(old(plane.View()), old(plane.trace), plane.trace, plane.View()), row.id)
      ensures !report.idProblem ==>
        PassResult(old(plane.View()), plane.View(), row, host, names, report.failed, report.refused, report.kept,
        report.done)
      ensures report.Clean() ==>
        Converged(plane.View(), row, host, names) && (report.done ==> Settled(plane.View(), row, host, names))
      ensures report.Clean() ==>
        && Isolated(plane.View(), row, host)
        && (report.done && NoForeign(plane.View(), row) ==> Routed(plane.View(), row, host))
      ensures !report.idProblem && Settled(old(plane.View()), row, host, names) ==>
        plane.trace == old(plane.trace) && report.done
      ensures report.done ==> !report.failed
      ensures host == snap.host || (InBand(row.id) && row.enable && row.provisions && host == plane.host)
      ensures Moved(plane.hosts, old(plane.hosts), plane.host, old(plane.host), InBand(row.id) && row.provisions)
    {
      NoCall(plane.View(), plane.trace, row.id);
      if !InBand(row.id) {
        return Report(true, false, false, false, false, false, false, true), snap.host;
      }
      report, host := ConvergeRow(snap, row, names);
      if report.Clean() {
        TrafficFollows(plane.View(), row, host, names, report.done);
      }
    }

    /** The pass itself, once the id is in the band. */
    method ConvergeRow(snap: Snapshot, row: Row, names: set<string>) returns (report: Report, ghost host: Host)
      requires InBand(row.id) && Agrees(multiset(snap.rules), multiset(snap.routes), plane.View(), row.id)
      modifies plane
      ensures !report.idProblem && Safe(Run(old(plane.View()), old(plane.trace), plane.trace, plane.View()), row.id)
      ensures PassResult(old(plane.View()), plane.View(), row, host, names, report.failed, report.refused, report.kept,
        report.done)
      ensures report.Clean() ==>
        Converged(plane.View(), row, host, names) && (report.done ==> Settled(plane.View(), row, host, names))
      ensures Settled(old(plane.View()), row, host, names) ==> plane.trace == old(plane.trace) && report.done
      ensures report.done ==> !report.failed
      ensures host == snap.host || (row.enable && row.provisions && host == plane.host)
      ensures Moved(plane.hosts, old(plane.hosts), plane.host, old(plane.host), row.provisions)
    {
      var seen, w, planProblem, provisionProblem := Prepare(snap, row);
      host := seen.host;
      var failed, refused, kept, done, shadowed := Settle(seen, w, row, names);
      report := Report(false, planProblem, provisionProblem, failed, refused, kept, shadowed, done);
    }

    /** The differences between a plan and what the host holds, and the calls that settle them. */
    method Settle(seen: Snapshot, w: Want, row: Row, names: set<string>)
        returns (failed: bool, refused: bool, kept: bool, done: bool, shadowed: bool)
      requires Plans(w, row, seen.host) && Agrees(multiset(seen.rules), multiset(seen.routes), plane.View(), row.id)
      modifies plane`rules, plane`routes, plane`trace
      ensures Safe(Run(old(plane.View()), old(plane.trace), plane.trace, plane.View()), row.id)
      ensures PassResult(old(plane.View()), plane.View(), row, seen.host, names, failed, refused, kept, done)
      ensures !failed && !kept && !shadowed ==>
        Converged(plane.View(), row, seen.host, names) && (done ==> Settled(plane.View(), row, seen.host, names))
      ensures Settled(old(plane.View()), row, seen.host, names) ==> plane.trace == old(plane.trace) && done
      ensures done ==> !failed
    {
      ghost var b, t := plane.View(), plane.trace;
      var h := OwnedView(seen.rules, seen.routes, row.id, w.device, names);
      AgreedParts(h, multiset(seen.rules), multiset(seen.routes), b, row.id, w.device, names);
      var c := Differences(w, h);
      failed, refused, kept, done := Apply(row, w, h, c, seen.host, names);
      shadowed := h.shadowRules != [] || h.shadowRoutes != [];
      if !failed && !kept && !shadowed {
        CleanPassConverges(Run(b, t, plane.trace, plane.View()), h, row, seen.host, names, refused, done);
      }
    }

    /** Converges one row from a fresh snapshot; a failed read changes nothing. */
    method Ensure(row: Row, names: set<string>) returns (report: Option<Report>, ghost host: Host)
      modifies plane
      ensures ContainmentKept(Run(old(plane.View()), old(plane.trace), plane.trace, plane.View()))
      ensures OnlyId(old(plane.View()), plane.View(), row.id)
      ensures report.None? ==> plane.trace == old(plane.trace)
      ensures report.Some? && report.value.Clean() ==>
        Converged(plane.View(), row, host, names) && (report.value.done ==> Settled(plane.View(), row, host, names))
      ensures host == old(plane.host) || (row.enable && row.provisions && host == plane.host)
      ensures !row.provisions ==> plane.host == old(plane.host)
    {
      ghost var b, t := plane.View(), plane.trace;
      host := plane.host;
      NoCall(b, t, row.id);
      SafeKeepsContainment(Run(b, t, t, b), row.id);
      var snap := plane.Snapshot();
      if snap.None? {
        return None, host;
      }
      var r;
      r, host := Converge(snap.value, row, names);
      SafeKeepsContainment(Run(b, t, plane.trace, plane.View()), row.id);
      SafeRunOnlyId(Run(b, t, plane.trace, plane.View()), row.id, |plane.trace|);
      return Some(r), host;
    }

    /** Every id to converge: those with a row, and those the host still holds something of. */
    method RowsById(rows: seq<Row>, snap: Snapshot) returns (byId: map<int, Row>)
      ensures forall id :: id in byId ==> byId[id] == RowOf(rows, id)
      ensures forall id :: id in byId <==> HasRow(rows, id) || StillHolds(snap, id)
    {
      byId := ListedRows(rows);
      assert forall r :: r in rows ==> r.id in byId;
      byId := RuleOrphans(rows, byId, snap.rules);
      byId := RouteOrphans(rows, byId, snap.routes);
      byId := LinkOrphans(rows, byId, snap.host.links);
      forall id ensures StillHolds(snap, id) <==>
        HeldByRule(snap.rules, id) || HeldByRoute(snap.routes, id) || HeldByLink(snap.host.links, id) {
        HoldsMeans(snap, id);
      }
    }

    method RuleOrphans(rows: seq<Row>, byId: map<int, Row>, rules: seq<Rule>) returns (out: map<int, Row>)
      requires (forall id :: id in byId ==> byId[id] == RowOf(rows, id)) && forall r :: r in rows ==> r.id in byId
      ensures (forall id :: id in out ==> out[id] == RowOf(rows, id)) && forall r :: r in rows ==> r.id in out
      ensures forall id :: id in out <==> id in byId || HeldByRule(rules, id)
    {
      out := byId;
      for i := 0 to |rules|
        invariant (forall id :: id in out ==> out[id] == RowOf(rows, id)) && forall r :: r in rows ==> r.id in out
        invariant forall id :: id in out <==> id in byId || HeldByRule(rules[..i], id)
      {
        TakeOneMore(rules, i);
        out := WithOrphan(rows, out, PrioId(rules[i].priority));
      }
      assert rules[..|rules|] == rules;
    }

    method RouteOrphans(rows: seq<Row>, byId: map<int, Row>, routes: seq<Route>) returns (out: map<int, Row>)
      requires (forall id :: id in byId ==> byId[id] == RowOf(rows, id)) && forall r :: r in rows ==> r.id in byId
      ensures (forall id :: id in out ==> out[id] == RowOf(rows, id)) && forall r :: r in rows ==> r.id in out
      ensures forall id :: id in out <==> id in byId || HeldByRoute(routes, id)
    {
      out := byId;
      for i := 0 to |routes|
        invariant (forall id :: id in out ==> out[id] == RowOf(rows, id)) && forall r :: r in rows ==> r.id in out
        invariant forall id :: id in out <==> id in byId || HeldByRoute(routes[..i], id)
      {
        TakeOneMore(routes, i);
        out := WithOrphan(rows, out, TableId(routes[i].table));
      }
      assert routes[..|routes|] == routes;
    }

    method LinkOrphans(rows: seq<Row>, byId: map<int, Row>, links: set<string>) returns (out: map<int, Row>)
      requires (forall id :: id in byId ==> byId[id] == RowOf(rows, id)) && forall r :: r in rows ==> r.id in byId
      ensures (forall id :: id in out ==> out[id] == RowOf(rows, id)) && forall r :: r in rows ==> r.id in out
      ensures forall id :: id in out <==> id in byId || HeldByLink(links, id)
    {
      out := byId;
      var todo := links;
      while todo != {}
        invariant todo <= links
        invariant (forall id :: id in out ==> out[id] == RowOf(rows, id)) && forall r :: r in rows ==> r.id in out
        invariant forall id :: id in out <==> id in byId || HeldByLink(links - todo, id)
      {
        var link :| link in todo;
        out := WithOrphan(rows, out, UplinkId(link));
        assert links - (todo - {link}) == links - todo + {link};
        todo := todo - {link};
      }
      assert links - todo == links;
    }

    method ListedRows(rows: seq<Row>) returns (byId: map<int, Row>)
      ensures forall id :: id in byId <==> exists r :: r in rows && r.id == id
      ensures forall id :: id in byId ==> byId[id] == RowOf(rows, id)
    {
      byId := map[];
      for i := 0 to |rows|
        invariant forall id :: id in byId <==> exists r :: r in rows[..i] && r.id == id
        invariant forall id :: id in byId ==> byId[id] == RowOf(rows[..i], id)
      {
        TakeOneMore(rows, i);
        forall id ensures RowOf(rows[..i + 1], id) == if rows[i].id == id then rows[i] else RowOf(rows[..i], id) {
          assert rows[..i + 1][..|rows[..i + 1]| - 1] == rows[..i];
        }
        byId := byId[rows[i].id := rows[i]];
      }
      assert rows[..|rows|] == rows;
    }

    /** Drives the whole host toward the rows on one snapshot, id by id in order:
        containment is kept throughout, every report stands at
        the end, a reconciliation whose calls all succeeded and kept nothing leaves
        exactly the plan of every id, and one that finds every plan calls nothing. */
    method Reconcile(rows: seq<Row>, names: int -> set<string>)
        returns (result: Option<map<int, Report>>, ghost hosts: map<int, Host>)
      modifies plane
      ensures ContainmentKept(Run(old(plane.View()), old(plane.trace), plane.trace, plane.View()))
      ensures result.None? ==> plane.trace == old(plane.trace)
      ensures result.Some? ==> hosts.Keys == result.value.Keys && forall r :: r in rows ==> r.id in result.value
      ensures result.Some? ==> forall id :: id in result.value ==>
        RowDone(plane.View(), RowOf(rows, id), hosts[id], names(id), result.value[id])
      ensures result.Some? ==> forall id :: id in result.value && result.value[id].Clean() ==>
        && Isolated(plane.View(), RowOf(rows, id), hosts[id])
        && (result.value[id].done && NoForeign(plane.View(), RowOf(rows, id)) ==>
          Routed(plane.View(), RowOf(rows, id), hosts[id]))
      ensures (&& result.Some?
               && forall id :: id in result.value && InBand(id) ==> result.value[id].done && !result.value[id].kept) ==>
        forall id :: InBand(id) ==> Settled(plane.View(), RowOf(rows, id), HostFor(hosts, id), names(id))
      ensures result.Some? && AllSettled(old(plane.View()), rows, names, hosts) ==> plane.trace == old(plane.trace)
      ensures old(plane.hosts) <= plane.hosts
        && Witnessed(hosts, rows, old(plane.host), plane.hosts[|old(plane.hosts)|..])
    {
      ghost var b, t := plane.View(), plane.trace;
      hosts := map[];
      NoCall(b, t, 0);
      SafeKeepsContainment(Run(b, t, t, b), 0);
      var read := plane.Snapshot();
      if read.None? {
        return None, hosts;
      }
      var snap := read.value;
      var byId := RowsById(rows, snap);
      var reports;
      reports, hosts := ConvergeAll(rows, byId, snap, names);
      forall id | InBand(id) && (id in reports ==> reports[id].done && !reports[id].kept)
        ensures Settled(plane.View(), RowOf(rows, id), HostFor(hosts, id), names(id))
      {
        if id in reports {
          RowOfId(rows, id);
        } else {
          UnlistedIsSettled(rows, byId, snap, plane.View(), id, HostFor(hosts, id), names(id));
        }
      }
      forall id | id in reports && reports[id].Clean()
        ensures Isolated(plane.View(), RowOf(rows, id), hosts[id])
        ensures reports[id].done && NoForeign(plane.View(), RowOf(rows, id)) ==>
          Routed(plane.View(), RowOf(rows, id), hosts[id])
      {
        TrafficFollows(plane.View(), RowOf(rows, id), hosts[id], names(id), reports[id].done);
      }
      return Some(reports), hosts;
    }

    method ConvergeAll(rows: seq<Row>, byId: map<int, Row>, snap: Snapshot, names: int -> set<string>)
        returns (reports: map<int, Report>, ghost hosts: map<int, Host>)
      requires multiset(snap.rules) == plane.rules && multiset(snap.routes) == plane.routes
      requires forall id :: id in byId ==> byId[id] == RowOf(rows, id)
      modifies plane
      ensures Reconciling(Run(old(plane.View()), old(plane.trace), plane.trace, plane.View()), snap, rows, names,
        reports, hosts)
      ensures reports.Keys == byId.Keys
      ensures old(plane.hosts) <= plane.hosts && Witnessed(hosts, rows, snap.host, plane.hosts[|old(plane.hosts)|..])
    {
      ghost var b, t, hs := plane.View(), plane.trace, plane.hosts;
      reports, hosts := map[], map[];
      ReconcilingStarts(b, t, snap, rows, names);
      var todo := byId.Keys;
      while todo != {}
        invariant todo <= byId.Keys && reports.Keys == byId.Keys - todo
        invariant Reconciling(Run(b, t, plane.trace, plane.View()), snap, rows, names, reports, hosts)
        invariant hs <= plane.hosts && Witnessed(hosts, rows, snap.host, plane.hosts[|hs|..])
      {
        var id := Least(todo);
        RowOfId(rows, id);
        ghost var run := Run(b, t, plane.trace, plane.View());
        ghost var host, before := snap.host, plane.hosts;
        var report;
        report, host := Converge(snap, byId[id], names(id));
        ReconcilingNext(run, Run(run.now, run.trace, plane.trace, plane.View()), snap, rows, names, reports, hosts, id,
          report, host);
        WitnessedNext(hosts, rows, snap.host, hs, before, plane.hosts, id, host, plane.host);
        reports, hosts, todo := reports[id := report], hosts[id := host], todo - {id};
      }
    }
  }
}
