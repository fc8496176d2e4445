/** What the phases of a convergence pass do to the kernel, step by step and in sum. */
module EgressPass {
  import opened Results
  import opened Egress
  import opened Diffs
  import opened EgressPlan
  import opened EgressKernel

  function CountFamily(rules: seq<Rule>, f: Family): nat
  {
    if rules == [] then 0 else CountFamily(rules[..|rules| - 1], f) + if rules[|rules| - 1].family == f then 1 else 0
  }

  lemma {:induction false} CountSplit(a: seq<Rule>, b: seq<Rule>, f: Family)
    ensures CountFamily(a + b, f) == CountFamily(a, f) + CountFamily(b, f)
  {
    if b == [] {
      assert a + b == a;
    } else {
      CountSplit(a, b[..|b| - 1], f);
      assert (a + b)[..|a + b| - 1] == a + b[..|b| - 1];
    }
  }

  lemma {:induction false} CountZero(rules: seq<Rule>, f: Family, r: Rule)
    requires r in rules && r.family == f
    ensures CountFamily(rules, f) > 0
  {
    var i :| 0 <= i < |rules| && rules[i] == r;
    assert rules == rules[..i] + [r] + rules[i + 1..];
    CountSplit(rules[..i] + [r], rules[i + 1..], f);
    CountSplit(rules[..i], [r], f);
  }

  lemma {:induction false} CountPositive(rules: seq<Rule>, f: Family)
    requires CountFamily(rules, f) > 0
    ensures exists r :: r in rules && r.family == f
  {
    if rules[|rules| - 1].family != f {
      CountPositive(rules[..|rules| - 1], f);
    }
  }

  /** The running count of installed rules a family. */
  ghost predicate Counts(live: map<Family, int>, own: seq<Rule>)
  {
    forall f: Family :: f in live && live[f] == CountFamily(own, f)
  }

  ghost function Without(own: seq<Rule>, r: Rule): (rest: seq<Rule>)
    requires r in own
    ensures multiset(rest) + multiset{r} == multiset(own)
    ensures forall f: Family :: CountFamily(own, f) == CountFamily(rest, f) + if r.family == f then 1 else 0
  {
    var i :| 0 <= i < |own| && own[i] == r;
    assert own == own[..i] + [r] + own[i + 1..];
    assert forall f: Family :: CountFamily(own, f) == CountFamily(own[..i] + own[i + 1..], f) + if r.family == f then 1
      else 0 by {
      forall f: Family ensures CountFamily(own, f) == CountFamily(own[..i] + own[i + 1..], f) + if r.family == f
        then 1 else 0 {
        CountSplit(own[..i] + [r], own[i + 1..], f);
        CountSplit(own[..i], [r], f);
        CountSplit(own[..i], own[i + 1..], f);
      }
    }
    own[..i] + own[i + 1..]
  }

  // ----- one call at a time -----

  lemma DelRuleSafe(b: Band, id: int, r: Rule)
    requires OwnRule(id, r)
    ensures SafeStep(b, Band(b.rules - multiset{r}, b.routes), id)
  {
  }

  lemma AddRuleSafe(b: Band, id: int, r: Rule)
    requires OwnRule(id, r) && HasHole(b.routes, id, r.family)
    ensures SafeStep(b, Band(b.rules + multiset{r}, b.routes), id)
  {
  }

  lemma AddRouteSafe(b: Band, id: int, r: Route)
    requires r.table == Table(id)
    ensures SafeStep(b, Band(b.rules, b.routes + multiset{r}), id)
  {
  }

  lemma DelRouteSafe(b: Band, id: int, r: Route)
    requires r.table == Table(id) && (OwnHole(id, r) ==> !HasRule(b.rules, id, r.family))
    ensures SafeStep(b, Band(b.rules, b.routes - multiset{r}), id)
  {
  }

  lemma PicksOneLess(own: seq<Rule>, rules: multiset<Rule>, id: int, r: Rule)
    requires Picks(own, rules, r => OwnRule(id, r)) && r in own
    ensures r in rules && OwnRule(id, r) && Picks(Without(own, r), rules - multiset{r}, r => OwnRule(id, r))
  {
    assert multiset(own)[r] == if OwnRule(id, r) then rules[r] else 0;
    assert multiset(own) == multiset(Without(own, r)) + multiset{r};
  }

  lemma StillAhead(own: multiset<Rule>, rest: multiset<Rule>, r: Rule)
    requires multiset{r} + rest <= own
    ensures r in own && rest <= own && rest <= own - multiset{r}
  {
  }

  lemma Regroup<T>(own: multiset<T>, x: multiset<T>, done: multiset<T>, all: multiset<T>)
    requires (own + x) + done == all
    ensures own + (done + x) == all
  {
  }

  /** Between the calls of the rule removal: the run so far is safe, the owned
      rules and their counts are known, and what was removed accounts for the rest. */
  ghost predicate Removing(run: Run, id: int, own0: seq<Rule>, own: seq<Rule>, live: map<Family, int>, dels: seq<Rule>,
      i: int, failed: bool)
    requires 0 <= i <= |dels|
  {
    && Safe(run, id) && Picks(own, run.now.rules, r => OwnRule(id, r)) && Counts(live, own)
    && multiset(dels[i..]) <= multiset(own)
    && (!failed ==> multiset(own) + multiset(dels[..i]) == multiset(own0))
  }

  lemma RemovingStarts(run: Run, id: int, own: seq<Rule>, live: map<Family, int>, dels: seq<Rule>)
    requires Safe(run, id) && Picks(own, run.now.rules, r => OwnRule(id, r)) && Counts(live, own)
      && multiset(dels) <= multiset(own)
    ensures Removing(run, id, own, own, live, dels, 0, false)
  {
    assert dels[0..] == dels && dels[..0] == [];
    assert multiset(own) + multiset{} == multiset(own);
  }

  lemma RemovingNext(run: Run, id: int, own0: seq<Rule>, own: seq<Rule>, live: map<Family, int>, dels: seq<Rule>,
      i: int, failed: bool)
    requires 0 <= i < |dels| && Removing(run, id, own0, own, live, dels, i, failed)
    ensures dels[i] in own && dels[i] in run.now.rules && OwnRule(id, dels[i])
  {
    DropOneMore(dels, i);
    StillAhead(multiset(own), multiset(dels[i + 1..]), dels[i]);
    PicksOneLess(own, run.now.rules, id, dels[i]);
  }

  lemma RemovingKeeps(run: Run, id: int, own0: seq<Rule>, own: seq<Rule>, live: map<Family, int>, dels: seq<Rule>,
      i: int, failed: bool)
    requires 0 <= i < |dels| && Removing(run, id, own0, own, live, dels, i, failed)
    ensures Removing(Call(run, run.now), id, own0, own, live, dels, i + 1, true)
  {
    DropOneMore(dels, i);
    StillAhead(multiset(own), multiset(dels[i + 1..]), dels[i]);
    SafeCall(run, id, run.now);
  }

  lemma RemovalIsSafe(run: Run, id: int, r: Rule)
    requires Safe(run, id) && OwnRule(id, r)
    ensures Safe(Call(run, Band(run.now.rules - multiset{r}, run.now.routes)), id)
  {
    DelRuleSafe(run.now, id, r);
    SafeCall(run, id, Band(run.now.rules - multiset{r}, run.now.routes));
  }

  lemma RemovalAccounts(own0: seq<Rule>, own: seq<Rule>, dels: seq<Rule>, i: int, failed: bool)
    requires 0 <= i < |dels| && dels[i] in own && multiset(dels[i..]) <= multiset(own)
      && (!failed ==> multiset(own) + multiset(dels[..i]) == multiset(own0))
    ensures multiset(dels[i + 1..]) <= multiset(Without(own, dels[i]))
    ensures !failed ==> multiset(Without(own, dels[i])) + multiset(dels[..i + 1]) == multiset(own0)
  {
    DropOneMore(dels, i);
    TakeOneMore(dels, i);
    StillAhead(multiset(own), multiset(dels[i + 1..]), dels[i]);
    assert multiset(own) - multiset{dels[i]} == multiset(Without(own, dels[i]));
    if !failed {
      Regroup(multiset(Without(own, dels[i])), multiset{dels[i]}, multiset(dels[..i]), multiset(own0));
    }
  }

  lemma RemovalCounts(live: map<Family, int>, own: seq<Rule>, r: Rule)
    requires Counts(live, own) && r in own
    ensures Counts(live[r.family := live[r.family] - 1], Without(own, r))
  {
  }

  lemma RemovingTakes(run: Run, id: int, own0: seq<Rule>, own: seq<Rule>, live: map<Family, int>, dels: seq<Rule>,
      i: int, failed: bool)
    requires 0 <= i < |dels| && Removing(run, id, own0, own, live, dels, i, failed) && dels[i] in own
    ensures var f := dels[i].family;
      Removing(Call(run, Band(run.now.rules - multiset{dels[i]}, run.now.routes)), id, own0, Without(own, dels[i]),
        live[f := live[f] - 1], dels, i + 1, failed)
  {
    PicksOneLess(own, run.now.rules, id, dels[i]);
    RemovalIsSafe(run, id, dels[i]);
    RemovalAccounts(own0, own, dels, i, failed);
    RemovalCounts(live, own, dels[i]);
  }

  /** Some or all of a list was added, and nothing else changed. */
  ghost predicate Grew(base: multiset<Route>, routes: multiset<Route>, list: seq<Route>, done: bool)
  {
    base <= routes <= base + multiset(list) && (done ==> routes == base + multiset(list))
  }

  /** Some or all of a list was removed, and nothing else changed. */
  ghost predicate Shrank(base: multiset<Route>, routes: multiset<Route>, list: seq<Route>, done: bool)
  {
    routes <= base <= routes + multiset(list) && (done ==> routes + multiset(list) == base)
  }

  /** The families known to have a blackhole. */
  ghost predicate Contains(routes: multiset<Route>, id: int, families: set<Family>)
  {
    forall f :: f in families ==> HasHole(routes, id, f)
  }

  function FamiliesOf(list: seq<Route>): set<Family>
  {
    set r | r in list :: r.family
  }

  lemma FamiliesOneMore(contained: set<Family>, held: set<Family>, list: seq<Route>, i: int)
    requires 0 <= i < |list| && contained >= held + FamiliesOf(list[..i])
    ensures contained + {list[i].family} >= held + FamiliesOf(list[..i + 1])
  {
    TakeOneMore(list, i);
  }

  lemma ContainsOneMore(routes: multiset<Route>, id: int, families: set<Family>, hole: Route)
    requires Contains(routes, id, families) && OwnHole(id, hole)
    ensures Contains(routes + multiset{hole}, id, families)
      && Contains(routes + multiset{hole}, id, families + {hole.family})
  {
    assert hole in routes + multiset{hole};
    forall f | f in families ensures HasHole(routes + multiset{hole}, id, f) {
      var r :| r in routes && OwnHole(id, r) && r.family == f;
      assert r in routes + multiset{hole};
    }
  }

  lemma GrowsOneMore(base: multiset<Route>, routes: multiset<Route>, list: seq<Route>, i: int, done: bool)
    requires 0 <= i < |list| && Grew(base, routes, list[..i], done)
    ensures Grew(base, routes + multiset{list[i]}, list[..i + 1], done) && Grew(base, routes, list[..i + 1], false)
  {
    TakeOneMore(list, i);
  }

  /** Between two additions of blackholes. */
  ghost predicate Containing(base: multiset<Route>, routes: multiset<Route>, list: seq<Route>, i: int, id: int,
      held: set<Family>, contained: set<Family>, failed: bool)
    requires 0 <= i <= |list|
  {
    && Grew(base, routes, list[..i], !failed) && Contains(routes, id, contained)
    && (!failed ==> contained >= held + FamiliesOf(list[..i]))
  }

  lemma ContainingStarts(routes: multiset<Route>, list: seq<Route>, id: int, held: set<Family>)
    requires Contains(routes, id, held)
    ensures Containing(routes, routes, list, 0, id, held, held, false)
  {
    assert routes + multiset{} == routes;
    assert held + FamiliesOf(list[..0]) == held;
  }

  lemma ContainingNext(base: multiset<Route>, routes: multiset<Route>, list: seq<Route>, i: int, id: int,
      held: set<Family>, contained: set<Family>, failed: bool)
    requires 0 <= i < |list| && Containing(base, routes, list, i, id, held, contained, failed) && OwnHole(id, list[i])
    ensures Containing(base, routes + multiset{list[i]}, list, i + 1, id, held, contained + {list[i].family}, failed)
    ensures Containing(base, routes, list, i + 1, id, held, contained, true)
  {
    GrowsOneMore(base, routes, list, i, !failed);
    if !failed {
      FamiliesOneMore(contained, held, list, i);
    }
    ContainsOneMore(routes, id, contained, list[i]);
  }

  lemma AddingAdds(run: Run, id: int, r: Route)
    requires Safe(run, id) && r.table == Table(id)
    ensures Safe(Call(run, Band(run.now.rules, run.now.routes + multiset{r})), id)
  {
    AddRouteSafe(run.now, id, r);
    SafeCall(run, id, Band(run.now.rules, run.now.routes + multiset{r}));
  }

  lemma ShrinksOneMore(base: multiset<Route>, routes: multiset<Route>, list: seq<Route>, i: int, done: bool)
    requires 0 <= i < |list| && Shrank(base, routes, list[..i], done) && multiset(list[i..]) <= routes
    ensures list[i] in routes && multiset(list[i + 1..]) <= routes
      && multiset(list[i + 1..]) <= routes - multiset{list[i]}
    ensures Shrank(base, routes - multiset{list[i]}, list[..i + 1], done) && Shrank(base, routes, list[..i + 1], false)
  {
    var rest := routes - multiset{list[i]};
    DropOneMore(list, i);
    TakeOneMore(list, i);
    assert rest + multiset{list[i]} == routes;
    assert rest + (multiset(list[..i]) + multiset{list[i]}) == routes + multiset(list[..i]);
  }

  lemma DroppingDrops(run: Run, id: int, r: Route)
    requires Safe(run, id) && r.table == Table(id) && (OwnHole(id, r) ==> !HasRule(run.now.rules, id, r.family))
    ensures Safe(Call(run, Band(run.now.rules, run.now.routes - multiset{r})), id)
  {
    DelRouteSafe(run.now, id, r);
    SafeCall(run, id, Band(run.now.rules, run.now.routes - multiset{r}));
  }

  /** Between the calls that install rules. */
  ghost predicate Installing(run: Run, id: int, own0: seq<Rule>, own: seq<Rule>, live: map<Family, int>,
      adds: seq<Rule>, i: int, failed: bool)
    requires 0 <= i <= |adds|
  {
    && Safe(run, id) && Picks(own, run.now.rules, r => OwnRule(id, r)) && Counts(live, own)
    && (!failed ==> own == own0 + adds[..i])
  }

  lemma InstallingStarts(run: Run, id: int, own: seq<Rule>, live: map<Family, int>, adds: seq<Rule>)
    requires Safe(run, id) && Picks(own, run.now.rules, r => OwnRule(id, r)) && Counts(live, own)
    ensures Installing(run, id, own, own, live, adds, 0, false)
  {
    assert own == own + adds[..0];
  }

  lemma InstallingMisses(run: Run, id: int, own0: seq<Rule>, own: seq<Rule>, live: map<Family, int>, adds: seq<Rule>,
      i: int, failed: bool)
    requires 0 <= i < |adds| && Installing(run, id, own0, own, live, adds, i, failed)
    ensures Installing(Call(run, run.now), id, own0, own, live, adds, i + 1, true)
      && Installing(run, id, own0, own, live, adds, i + 1, true)
  {
    IdleCall(run, id);
  }

  lemma CountOneMore(own: seq<Rule>, r: Rule, live: map<Family, int>)
    requires Counts(live, own)
    ensures Counts(live[r.family := live[r.family] + 1], own + [r])
  {
    assert (own + [r])[..|own + [r]| - 1] == own;
  }

  lemma InstallIsSafe(run: Run, id: int, r: Rule)
    requires Safe(run, id) && OwnRule(id, r) && HasHole(run.now.routes, id, r.family)
    ensures Safe(Call(run, Band(run.now.rules + multiset{r}, run.now.routes)), id)
  {
    AddRuleSafe(run.now, id, r);
    SafeCall(run, id, Band(run.now.rules + multiset{r}, run.now.routes));
  }

  lemma OneMoreInstalled(own0: seq<Rule>, adds: seq<Rule>, i: int)
    requires 0 <= i < |adds|
    ensures own0 + adds[..i] + [adds[i]] == own0 + adds[..i + 1]
  {
  }

  lemma InstallingAdds(run: Run, id: int, own0: seq<Rule>, own: seq<Rule>, live: map<Family, int>, adds: seq<Rule>,
      i: int, failed: bool)
    requires 0 <= i < |adds| && Installing(run, id, own0, own, live, adds, i, failed)
    requires OwnRule(id, adds[i]) && HasHole(run.now.routes, id, adds[i].family)
    ensures var f := adds[i].family;
      f in live && Installing(Call(run, Band(run.now.rules + multiset{adds[i]}, run.now.routes)), id, own0,
        own + [adds[i]], live[f := live[f] + 1], adds, i + 1, failed)
  {
    InstallIsSafe(run, id, adds[i]);
    PicksOneMore(own, run.now.rules, r => OwnRule(id, r), adds[i]);
    CountOneMore(own, adds[i], live);
    OneMoreInstalled(own0, adds, i);
  }

  /** Once the count of a family's rules reaches zero none of them is installed. */
  lemma NoneLive(rules: multiset<Rule>, own: seq<Rule>, live: map<Family, int>, id: int, f: Family)
    requires Picks(own, rules, r => OwnRule(id, r)) && Counts(live, own)
    ensures f in live && (live[f] > 0 <==> HasRule(rules, id, f))
  {
    if HasRule(rules, id, f) {
      var r :| r in rules && OwnRule(id, r) && r.family == f;
      assert multiset(own)[r] == rules[r];
      CountZero(own, f, r);
    }
    if live[f] > 0 {
      CountPositive(own, f);
      var r :| r in own && r.family == f;
      assert multiset(own)[r] == if OwnRule(id, r) then rules[r] else 0;
      assert r in multiset(own);
    }
  }

  /** A listed blackhole of a family that still has rules. */
  ghost predicate AnyLive(list: seq<Route>, rules: multiset<Rule>, id: int)
  {
    exists r :: r in list && HasRule(rules, id, r.family)
  }

  lemma AnyLiveOneMore(list: seq<Route>, i: int, rules: multiset<Rule>, id: int)
    requires 0 <= i < |list|
    ensures AnyLive(list[..i + 1], rules, id) <==> AnyLive(list[..i], rules, id) || HasRule(rules, id, list[i].family)
  {
    TakeOneMore(list, i);
    if AnyLive(list[..i], rules, id) {
      var r :| r in list[..i] && HasRule(rules, id, r.family);
      assert r in list[..i + 1];
    }
    assert list[i] in list[..i + 1];
  }

  // ----- what the differences add up to -----

  /** The change lists of one pass: exact differences of what is wanted and held. */
  datatype Changes = Changes(
    addRules: seq<Rule>, delRules: seq<Rule>, addHoles: seq<Route>, delHoles: seq<Route>,
    addThrows: seq<Route>, delThrows: seq<Route>, addFronts: seq<Route>, delFronts: seq<Route>)

  ghost predicate Differs<T>(add: seq<T>, del: seq<T>, want: seq<T>, have: seq<T>)
  {
    multiset(add) == multiset(want) - multiset(have) && multiset(del) == multiset(have) - multiset(want)
  }

  ghost predicate ChangesFor(c: Changes, w: Want, h: Have)
  {
    && Differs(c.addRules, c.delRules, w.rules, h.rules) && Differs(c.addHoles, c.delHoles, w.holes, h.holes)
    && Differs(c.addThrows, c.delThrows, w.throws, h.throws) && Differs(c.addFronts, c.delFronts, w.fronts, h.fronts)
  }

  /** What is added is wanted, and what is deleted is owned and there. */
  lemma DiffersWithin<T(!new)>(add: seq<T>, del: seq<T>, want: seq<T>, have: seq<T>, wanted: T -> bool,
      owned: T -> bool, all: multiset<T>, x: T)
    requires Differs(add, del, want, have) && Lists(want, wanted) && Picks(have, all, owned)
    ensures x in add ==> wanted(x)
    ensures x in del ==> owned(x)
    ensures multiset(del)[x] <= all[x]
    ensures multiset(add)[x] == (if wanted(x) && !(owned(x) && x in all) then 1 else 0)
    ensures owned(x) ==> multiset(del)[x] + (if wanted(x) then 1 else 0) == all[x] + multiset(add)[x]
  {
    assert multiset(want)[x] == if wanted(x) then 1 else 0;
    assert multiset(have)[x] == if owned(x) then all[x] else 0;
    assert x in add <==> x in multiset(add);
    assert x in del <==> x in multiset(del);
  }

  /** The lists of a pass name this id's own objects, the deleted ones all there. */
  ghost predicate Owned(c: Changes, h: Have, b: Band, id: int)
  {
    && Picks(h.rules, b.rules, r => OwnRule(id, r)) && multiset(c.delRules) <= multiset(h.rules)
    && (forall r :: r in c.addRules ==> OwnRule(id, r))
    && (forall r :: r in c.addHoles || r in c.delHoles ==> OwnHole(id, r))
    && (forall r :: r in c.addThrows || r in c.delThrows ==> OwnThrow(id, r))
    && (forall r :: r in c.addFronts || r in c.delFronts ==> r.table == Table(id) && r.kind == Unicast)
    && multiset(c.delHoles) <= b.routes && multiset(c.delThrows) <= b.routes && multiset(c.delFronts) <= b.routes
  }

  /** The part of it the second half of a pass relies on. */
  ghost predicate Releasable(c: Changes, routes: multiset<Route>, id: int)
  {
    && (forall r :: r in c.delHoles ==> OwnHole(id, r)) && (forall r :: r in c.delThrows ==> OwnThrow(id, r))
    && (forall r :: r in c.addFronts || r in c.delFronts ==> r.table == Table(id) && r.kind == Unicast)
    && multiset(c.delHoles) <= routes && multiset(c.delThrows) <= routes && multiset(c.delFronts) <= routes
  }

  lemma StillReleasable(c: Changes, h: Have, b: Band, routes: multiset<Route>, id: int)
    requires Owned(c, h, b, id) && b.routes <= routes
    ensures Releasable(c, routes, id)
  {
  }

  lemma KeepsOthers(list: seq<Route>, gone: seq<Route>, before: multiset<Route>, after: multiset<Route>)
    requires multiset(list) <= before && before <= after + multiset(gone) && forall r :: r in list ==> r !in gone
    ensures multiset(list) <= after
  {
    forall r ensures multiset(list)[r] <= after[r] {
      if r in multiset(list) {
        assert r in list && r !in gone && r !in multiset(gone);
      }
    }
  }

  lemma ContainsMore(routes: multiset<Route>, more: multiset<Route>, id: int, families: set<Family>)
    requires Contains(routes, id, families) && routes <= more
    ensures Contains(more, id, families)
  {
    forall f | f in families ensures HasHole(more, id, f) {
      var r :| r in routes && OwnHole(id, r) && r.family == f;
      assert r in more;
    }
  }

  /** What the second half of a clean pass did to each route's count. */
  ghost predicate Released(before: multiset<Route>, after: multiset<Route>, c: Changes, done: bool)
  {
    forall r ::
      && after[r] + multiset(c.delHoles)[r] + multiset(c.delThrows)[r] + multiset(c.delFronts)[r]
         <= before[r] + multiset(c.addFronts)[r]
      && before[r] <= after[r] + multiset(c.delHoles)[r] + multiset(c.delThrows)[r] + multiset(c.delFronts)[r]
      && (done ==>
        after[r] + multiset(c.delHoles)[r] + multiset(c.delThrows)[r] + multiset(c.delFronts)[r] ==
        before[r] + multiset(c.addFronts)[r])
  }

  lemma AddUp(r0: multiset<Route>, r1: multiset<Route>, r2: multiset<Route>, r3: multiset<Route>, r4: multiset<Route>,
      c: Changes, done: bool)
    requires Shrank(r0, r1, c.delFronts, true) && Grew(r1, r2, c.addFronts, done) && Shrank(r2, r3, c.delThrows, true)
      && Shrank(r3, r4, c.delHoles, true)
    ensures Released(r0, r4, c, done)
  {
  }

  /** How many rules of each family are installed to begin with. */
  method CountLive(rules: seq<Rule>) returns (live: map<Family, int>)
    ensures Counts(live, rules)
  {
    live := map[V4 := 0, V6 := 0];
    forall f: Family ensures f in live && live[f] == CountFamily([], f) {
      match f case V4 => case V6 =>
    }
    for i := 0 to |rules|
      invariant Counts(live, rules[..i])
    {
      TakeOneMore(rules, i);
      CountOneMore(rules[..i], rules[i], live);
      live := live[rules[i].family := live[rules[i].family] + 1];
    }
    assert rules[..|rules|] == rules;
  }

  // ----- what a whole pass leaves -----

  lemma PassPlansRules(own: seq<Rule>, rules: multiset<Rule>, c: Changes, w: Want, h: Have, row: Row)
    requires Picks(own, rules, r => OwnRule(row.id, r)) && Lists(w.rules, r => WantsRule(row, r))
    requires Differs(c.addRules, c.delRules, w.rules, h.rules)
      && multiset(own) + multiset(c.delRules) == multiset(h.rules) + multiset(c.addRules)
    ensures RulesPlanned(rules, row)
  {
    forall r | OwnRule(row.id, r) ensures rules[r] == if WantsRule(row, r) then 1 else 0 {
      assert (multiset(own) + multiset(c.delRules))[r] == (multiset(h.rules) + multiset(c.addRules))[r];
      assert multiset(own)[r] == rules[r];
      assert multiset(w.rules)[r] == if WantsRule(row, r) then 1 else 0;
    }
  }

  /** One route's count through a clean pass. */
  ghost predicate PassCounts(r0: multiset<Route>, r1: multiset<Route>, c: Changes, done: bool)
  {
    Released(r0 + multiset(c.addHoles) + multiset(c.addThrows), r1, c, done)
  }

  lemma PassPlansHoles(r0: multiset<Route>, r1: multiset<Route>, c: Changes, done: bool, w: Want, h: Have, row: Row)
    requires PassCounts(r0, r1, c, done) && Lists(w.holes, r => WantsHole(row, r))
      && Picks(h.holes, r0, r => OwnHole(row.id, r))
    requires Differs(c.addHoles, c.delHoles, w.holes, h.holes)
    requires forall r :: r in c.addThrows || r in c.delThrows || r in c.addFronts || r in c.delFronts ==>
      !OwnHole(row.id, r)
    ensures HolesPlanned(r1, row)
  {
    forall r | OwnHole(row.id, r) ensures r1[r] == if WantsHole(row, r) then 1 else 0 {
      DiffersWithin(c.addHoles, c.delHoles, w.holes, h.holes, r => WantsHole(row, r), r => OwnHole(row.id, r), r0, r);
      assert r !in multiset(c.addThrows) && r !in multiset(c.delThrows) && r !in multiset(c.addFronts)
        && r !in multiset(c.delFronts);
      assert (r0 + multiset(c.addHoles) + multiset(c.addThrows))[r] == r0[r] + multiset(c.addHoles)[r];
    }
  }

  lemma PassPlansThrows(r0: multiset<Route>, r1: multiset<Route>, c: Changes, done: bool, w: Want, h: Have, row: Row)
    requires PassCounts(r0, r1, c, done) && Lists(w.throws, r => WantsThrow(row, r))
      && Picks(h.throws, r0, r => OwnThrow(row.id, r))
    requires Differs(c.addThrows, c.delThrows, w.throws, h.throws)
    requires forall r :: r in c.addHoles || r in c.delHoles || r in c.addFronts || r in c.delFronts ==>
      !OwnThrow(row.id, r)
    ensures ThrowsPlanned(r1, row)
  {
    forall r | OwnThrow(row.id, r) ensures r1[r] == if WantsThrow(row, r) then 1 else 0 {
      DiffersWithin(c.addThrows, c.delThrows, w.throws, h.throws, r => WantsThrow(row, r),
        r => OwnThrow(row.id, r), r0, r);
      assert r !in multiset(c.addHoles) && r !in multiset(c.delHoles) && r !in multiset(c.addFronts)
        && r !in multiset(c.delFronts);
      assert (r0 + multiset(c.addHoles) + multiset(c.addThrows))[r] == r0[r] + multiset(c.addThrows)[r];
    }
  }

  lemma PassPlansFronts(r0: multiset<Route>, r1: multiset<Route>, c: Changes, done: bool, w: Want, h: Have, row: Row,
      host: Host, names: set<string>)
    requires PassCounts(r0, r1, c, done) && Lists(w.fronts, r => WantsFront(row, host, r))
      && Picks(h.fronts, r0, r => OwnFront(row.id, DeviceOf(row), names, r))
    requires Differs(c.addFronts, c.delFronts, w.fronts, h.fronts)
    requires forall r :: r in c.addHoles || r in c.delHoles || r in c.addThrows || r in c.delThrows ==>
      r.kind != Unicast
    ensures FrontsWithin(r1, row, host, names) && (done ==> FrontsPlanned(r1, row, host, names))
  {
    forall r | OwnFront(row.id, DeviceOf(row), names, r)
      ensures r1[r] <= (if WantsFront(row, host, r) then 1 else 0)
        && (done ==> r1[r] == if WantsFront(row, host, r) then 1 else 0)
    {
      DiffersWithin(c.addFronts, c.delFronts, w.fronts, h.fronts, r => WantsFront(row, host, r),
        r => OwnFront(row.id, DeviceOf(row), names, r), r0, r);
      assert r !in multiset(c.addHoles) && r !in multiset(c.delHoles) && r !in multiset(c.addThrows)
        && r !in multiset(c.delThrows);
      assert (r0 + multiset(c.addHoles) + multiset(c.addThrows))[r] == r0[r];
    }
  }

  lemma ChangesAreOwned(c: Changes, w: Want, h: Have, b: Band, row: Row, host: Host, names: set<string>)
    requires ChangesFor(c, w, h) && Plans(w, row, host)
    requires OwnedRulePart(h, b.rules, row.id) && OwnedRoutePart(h, b.routes, row.id, DeviceOf(row), names)
    ensures Owned(c, h, b, row.id)
  {
    RuleChangesAreOwned(c, w, h, b, row);
    HoleChangesAreOwned(c, w, h, b.routes, row);
    ThrowChangesAreOwned(c, w, h, b.routes, row);
    FrontChangesAreOwned(c, w, h, b.routes, row, host, names);
  }

  lemma RuleChangesAreOwned(c: Changes, w: Want, h: Have, b: Band, row: Row)
    requires Differs(c.addRules, c.delRules, w.rules, h.rules) && Lists(w.rules, r => WantsRule(row, r))
      && Picks(h.rules, b.rules, r => OwnRule(row.id, r))
    ensures forall r :: r in c.addRules ==> OwnRule(row.id, r)
  {
    forall r ensures r in c.addRules ==> OwnRule(row.id, r) {
      DiffersWithin(c.addRules, c.delRules, w.rules, h.rules, r => WantsRule(row, r),
        r => OwnRule(row.id, r), b.rules, r);
    }
  }

  lemma HoleChangesAreOwned(c: Changes, w: Want, h: Have, routes: multiset<Route>, row: Row)
    requires Differs(c.addHoles, c.delHoles, w.holes, h.holes) && Lists(w.holes, r => WantsHole(row, r))
      && Picks(h.holes, routes, r => OwnHole(row.id, r))
    ensures (forall r :: r in c.addHoles || r in c.delHoles ==> OwnHole(row.id, r)) && multiset(c.delHoles) <= routes
  {
    forall r ensures (r in c.addHoles || r in c.delHoles ==> OwnHole(row.id, r))
      && multiset(c.delHoles)[r] <= routes[r] {
      DiffersWithin(c.addHoles, c.delHoles, w.holes, h.holes, r => WantsHole(row, r),
        r => OwnHole(row.id, r), routes, r);
    }
  }

  lemma ThrowChangesAreOwned(c: Changes, w: Want, h: Have, routes: multiset<Route>, row: Row)
    requires Differs(c.addThrows, c.delThrows, w.throws, h.throws) && Lists(w.throws, r => WantsThrow(row, r))
      && Picks(h.throws, routes, r => OwnThrow(row.id, r))
    ensures (forall r :: r in c.addThrows || r in c.delThrows ==> OwnThrow(row.id, r))
      && multiset(c.delThrows) <= routes
  {
    forall r ensures (r in c.addThrows || r in c.delThrows ==> OwnThrow(row.id, r))
      && multiset(c.delThrows)[r] <= routes[r] {
      DiffersWithin(c.addThrows, c.delThrows, w.throws, h.throws, r => WantsThrow(row, r),
        r => OwnThrow(row.id, r), routes, r);
    }
  }

  lemma FrontChangesAreOwned(c: Changes, w: Want, h: Have, routes: multiset<Route>, row: Row, host: Host,
      names: set<string>)
    requires Differs(c.addFronts, c.delFronts, w.fronts, h.fronts) && Lists(w.fronts, r => WantsFront(row, host, r))
    requires Picks(h.fronts, routes, r => OwnFront(row.id, DeviceOf(row), names, r))
    ensures (forall r :: r in c.addFronts || r in c.delFronts ==> r.table == Table(row.id) && r.kind == Unicast)
      && multiset(c.delFronts) <= routes
  {
    forall r ensures (r in c.addFronts || r in c.delFronts ==> r.table == Table(row.id) && r.kind == Unicast)
      && multiset(c.delFronts)[r] <= routes[r] {
      DiffersWithin(c.addFronts, c.delFronts, w.fronts, h.fronts, r => WantsFront(row, host, r),
        r => OwnFront(row.id, DeviceOf(row), names, r), routes, r);
    }
  }

  /** The families of the owned blackholes are contained to begin with. */
  lemma HeldAreContained(h: Have, routes: multiset<Route>, id: int)
    requires Picks(h.holes, routes, r => OwnHole(id, r))
    ensures Contains(routes, id, FamiliesOf(h.holes))
  {
    forall f | f in FamiliesOf(h.holes) ensures HasHole(routes, id, f) {
      var r :| r in h.holes && r.family == f;
      assert r in multiset(h.holes);
      assert multiset(h.holes)[r] == if OwnHole(id, r) then routes[r] else 0;
    }
  }

  /** Once no addition of a blackhole failed, no rule is refused. */
  lemma NoRuleIsRefused(c: Changes, w: Want, h: Have, b: Band, row: Row, host: Host, names: set<string>, r: Rule)
    requires ChangesFor(c, w, h) && Plans(w, row, host)
    requires OwnedRulePart(h, b.rules, row.id) && OwnedRoutePart(h, b.routes, row.id, DeviceOf(row), names)
    requires r in c.addRules
    ensures r.family in FamiliesOf(h.holes) + FamiliesOf(c.addHoles)
  {
    DiffersWithin(c.addRules, c.delRules, w.rules, h.rules, r => WantsRule(row, r),
      r => OwnRule(row.id, r), b.rules, r);
    var hole := Hole(row.id, r.family);
    DiffersWithin(c.addHoles, c.delHoles, w.holes, h.holes, r => WantsHole(row, r),
      r => OwnHole(row.id, r), b.routes, hole);
    assert multiset(h.holes)[hole] == if OwnHole(row.id, hole) then b.routes[hole] else 0;
    if hole !in multiset(h.holes) {
      assert hole in c.addHoles;
    }
  }

  /** An owned blackhole beyond the planned one, in a family with planned rules. */
  ghost predicate SpareHole(b: Band, row: Row)
  {
    exists r :: Spare(b, row, r) && RulesWanted(row, r.family)
  }

  predicate Spare(b: Band, row: Row, r: Route)
  {
    OwnHole(row.id, r) && b.routes[r] > if WantsHole(row, r) then 1 else 0
  }

  ghost predicate RulesWanted(row: Row, f: Family)
  {
    exists q :: WantsRule(row, q) && q.family == f
  }

  lemma DeletedIsSpare(c: Changes, w: Want, h: Have, b: Band, row: Row, r: Route)
    requires Differs(c.addHoles, c.delHoles, w.holes, h.holes) && Lists(w.holes, r => WantsHole(row, r))
      && Picks(h.holes, b.routes, r => OwnHole(row.id, r))
    ensures r in c.delHoles <==> Spare(b, row, r)
  {
    DiffersWithin(c.addHoles, c.delHoles, w.holes, h.holes, r => WantsHole(row, r),
      r => OwnHole(row.id, r), b.routes, r);
    assert r in c.delHoles <==> r in multiset(c.delHoles);
  }

  lemma PlannedRulesAreThere(rules: multiset<Rule>, row: Row, f: Family)
    requires RulesPlanned(rules, row)
    ensures HasRule(rules, row.id, f) <==> RulesWanted(row, f)
  {
    if HasRule(rules, row.id, f) {
      var q :| q in rules && OwnRule(row.id, q) && q.family == f;
      assert WantsRule(row, q);
    }
    if RulesWanted(row, f) {
      var q :| WantsRule(row, q) && q.family == f;
      assert OwnRule(row.id, q);
    }
  }

  /** Once the planned rules are in, a blackhole is kept exactly when a spare one
      of a family with planned rules is there. */
  lemma KeptExactly(c: Changes, w: Want, h: Have, b: Band, rules: multiset<Rule>, row: Row)
    requires Differs(c.addHoles, c.delHoles, w.holes, h.holes) && Lists(w.holes, r => WantsHole(row, r))
      && Picks(h.holes, b.routes, r => OwnHole(row.id, r))
    requires RulesPlanned(rules, row)
    ensures AnyLive(c.delHoles, rules, row.id) <==> SpareHole(b, row)
  {
    forall r ensures r in c.delHoles <==> Spare(b, row, r) {
      DeletedIsSpare(c, w, h, b, row, r);
    }
    forall f ensures HasRule(rules, row.id, f) <==> RulesWanted(row, f) {
      PlannedRulesAreThere(rules, row, f);
    }
  }

  /** From a settled state there is nothing to add and nothing to delete. */
  lemma SettledNeedsNothing(c: Changes, w: Want, h: Have, b: Band, row: Row, host: Host, names: set<string>)
    requires ChangesFor(c, w, h) && Plans(w, row, host) && Settled(b, row, host, names)
    requires OwnedRulePart(h, b.rules, row.id) && OwnedRoutePart(h, b.routes, row.id, DeviceOf(row), names)
    ensures c == NO_CHANGES
  {
    NoRuleChanges(c, w, h, b.rules, row);
    NoRouteChanges(c, w, h, b.routes, row, host, names);
  }

  lemma NoRuleChanges(c: Changes, w: Want, h: Have, rules: multiset<Rule>, row: Row)
    requires Differs(c.addRules, c.delRules, w.rules, h.rules) && Lists(w.rules, r => WantsRule(row, r))
      && Picks(h.rules, rules, r => OwnRule(row.id, r))
    requires RulesPlanned(rules, row)
    ensures c.addRules == [] && c.delRules == []
  {
    SameLists(c.addRules, c.delRules, w.rules, h.rules, r => WantsRule(row, r), r => OwnRule(row.id, r), rules);
  }

  lemma NoHoleChanges(c: Changes, w: Want, h: Have, routes: multiset<Route>, row: Row)
    requires Differs(c.addHoles, c.delHoles, w.holes, h.holes) && Lists(w.holes, r => WantsHole(row, r))
      && Picks(h.holes, routes, r => OwnHole(row.id, r))
    requires HolesPlanned(routes, row)
    ensures c.addHoles == [] && c.delHoles == []
  {
    SameLists(c.addHoles, c.delHoles, w.holes, h.holes, r => WantsHole(row, r), r => OwnHole(row.id, r), routes);
  }

  lemma NoThrowChanges(c: Changes, w: Want, h: Have, routes: multiset<Route>, row: Row)
    requires Differs(c.addThrows, c.delThrows, w.throws, h.throws) && Lists(w.throws, r => WantsThrow(row, r))
      && Picks(h.throws, routes, r => OwnThrow(row.id, r))
    requires ThrowsPlanned(routes, row)
    ensures c.addThrows == [] && c.delThrows == []
  {
    SameLists(c.addThrows, c.delThrows, w.throws, h.throws, r => WantsThrow(row, r), r => OwnThrow(row.id, r), routes);
  }

  lemma NoFrontChanges(c: Changes, w: Want, h: Have, routes: multiset<Route>, row: Row, host: Host, names: set<string>)
    requires Differs(c.addFronts, c.delFronts, w.fronts, h.fronts) && Lists(w.fronts, r => WantsFront(row, host, r))
    requires Picks(h.fronts, routes, r => OwnFront(row.id, DeviceOf(row), names, r))
      && FrontsPlanned(routes, row, host, names)
    ensures c.addFronts == [] && c.delFronts == []
  {
    SameLists(c.addFronts, c.delFronts, w.fronts, h.fronts, r => WantsFront(row, host, r),
      r => OwnFront(row.id, DeviceOf(row), names, r), routes);
  }

  lemma NoRouteChanges(c: Changes, w: Want, h: Have, routes: multiset<Route>, row: Row, host: Host, names: set<string>)
    requires ChangesFor(c, w, h) && Plans(w, row, host) && OwnedRoutePart(h, routes, row.id, DeviceOf(row), names)
    requires HolesPlanned(routes, row) && ThrowsPlanned(routes, row) && FrontsPlanned(routes, row, host, names)
    ensures c.addHoles == c.delHoles == c.addThrows == c.delThrows == c.addFronts == c.delFronts == []
  {
    NoHoleChanges(c, w, h, routes, row);
    NoThrowChanges(c, w, h, routes, row);
    NoFrontChanges(c, w, h, routes, row, host, names);
  }

  lemma SameLists<T(!new)>(add: seq<T>, del: seq<T>, want: seq<T>, have: seq<T>, wanted: T -> bool, owned: T -> bool,
      all: multiset<T>)
    requires Differs(add, del, want, have) && Lists(want, wanted) && Picks(have, all, owned)
    requires forall x :: (wanted(x) ==> owned(x)) && (owned(x) ==> all[x] == if wanted(x) then 1 else 0)
    ensures add == [] && del == []
  {
    assert multiset(want) == multiset(have);
  }

  /** The plan is in, except fronts that are not ready. */
  ghost predicate InPlace(b: Band, row: Row, host: Host, names: set<string>, done: bool)
  {
    && RulesPlanned(b.rules, row) && HolesPlanned(b.routes, row) && ThrowsPlanned(b.routes, row)
    && FrontsWithin(b.routes, row, host, names) && (done ==> FrontsPlanned(b.routes, row, host, names))
  }

  lemma PassPlansRoutes(r0: multiset<Route>, r1: multiset<Route>, c: Changes, done: bool, w: Want, h: Have, row: Row,
      host: Host, names: set<string>, b: Band)
    requires PassCounts(r0, r1, c, done) && ChangesFor(c, w, h) && Plans(w, row, host)
    requires OwnedRoutePart(h, r0, row.id, DeviceOf(row), names) && Owned(c, h, b, row.id)
    ensures HolesPlanned(r1, row) && ThrowsPlanned(r1, row) && FrontsWithin(r1, row, host, names)
      && (done ==> FrontsPlanned(r1, row, host, names))
  {
    PassPlansHoles(r0, r1, c, done, w, h, row);
    PassPlansThrows(r0, r1, c, done, w, h, row);
    PassPlansFronts(r0, r1, c, done, w, h, row, host, names);
  }

  /** The counts both halves of a pass leave. */
  ghost predicate PassLeaves(before: multiset<Route>, after: Band, c: Changes, h: Have, id: int, own: seq<Rule>,
      failed: bool, refused: bool, kept: bool, done: bool)
  {
    && (kept <==> AnyLive(c.delHoles, after.rules, id))
    && (!failed && !refused ==> multiset(own) + multiset(c.delRules) == multiset(h.rules) + multiset(c.addRules))
    && (!failed && refused ==> exists r :: r in c.addRules && r.family !in FamiliesOf(h.holes) + FamiliesOf(c.addHoles))
    && (!failed && !kept ==> PassCounts(before, after.routes, c, done))
  }

  const NO_CHANGES := Changes([], [], [], [], [], [], [], [])

  /** No blackhole went while a rule of its family is left. */
  ghost predicate Guarded(before: multiset<Route>, after: Band, id: int)
  {
    forall r :: OwnHole(id, r) && HasRule(after.rules, id, r.family) ==> before[r] <= after.routes[r]
  }

  /** The routes of a family that still has rules are as they were. */
  ghost predicate Untouched(before: multiset<Route>, after: multiset<Route>, rules: multiset<Rule>, id: int)
  {
    forall r: Route :: HasRule(rules, id, r.family) ==> after[r] == before[r]
  }

  lemma StaysUntouched(before: multiset<Route>, after: multiset<Route>, rules: multiset<Rule>, id: int, gone: Route)
    requires Untouched(before, after, rules, id) && !HasRule(rules, id, gone.family)
    ensures Untouched(before, after - multiset{gone}, rules, id)
  {
  }

  /** Neither half of a pass takes one: the first only adds routes, the second
      takes fronts, throws and unguarded blackholes. */
  lemma HalvesGuard(r0: multiset<Route>, r1: multiset<Route>, r2: multiset<Route>, r3: multiset<Route>, after: Band,
      c: Changes, id: int)
    requires Shrank(r0, r1, c.delFronts, false) && r1 <= r2 && Shrank(r2, r3, c.delThrows, false)
    requires forall r :: r in c.delFronts || r in c.delThrows ==> !OwnHole(id, r)
    requires Untouched(r3, after.routes, after.rules, id)
    ensures Guarded(r0, after, id)
  {
    forall r | OwnHole(id, r) && HasRule(after.rules, id, r.family) ensures r0[r] <= after.routes[r] {
      assert r !in c.delFronts && r !in c.delThrows;
      assert multiset(c.delFronts)[r] == 0 && multiset(c.delThrows)[r] == 0;
    }
  }

  /** What a pass reports and leaves: without a failed call no rule is refused, a
      blackhole is kept exactly where a spare one guards planned rules, and
      otherwise the plan is in place. */
  ghost predicate PassResult(b: Band, after: Band, row: Row, host: Host, names: set<string>, failed: bool,
      refused: bool, kept: bool, done: bool)
  {
    && (!failed ==> !refused && (kept <==> SpareHole(b, row)) && RulesPlanned(after.rules, row))
    && Guarded(b.routes, after, row.id)
    && (!failed && !kept ==> InPlace(after, row, host, names, done) && NoNewShadow(b.routes, after.routes, row, names))
  }

  ghost predicate NoNewShadow(before: multiset<Route>, after: multiset<Route>, row: Row, names: set<string>)
  {
    forall r :: r in after && ShadowRoute(row.id, DeviceOf(row), names, r) ==> r in before
  }

  /** A spare blackhole outlives every pass without a failed call. */
  lemma SpareHoleStays(b: Band, after: Band, row: Row, host: Host, names: set<string>, refused: bool, kept: bool,
      done: bool)
    requires PassResult(b, after, row, host, names, false, refused, kept, done) && SpareHole(b, row)
    ensures kept && SpareHole(after, row)
  {
    var r :| Spare(b, row, r) && RulesWanted(row, r.family);
    PlannedRulesAreThere(after.rules, row, r.family);
    assert Spare(after, row, r);
  }

  /** So however often the row is converged, every pass without a failed call
      reports it: none is ever clean. */
  lemma {:induction false} SpareHoleIsReportedForever(bands: seq<Band>, row: Row, hosts: seq<Host>, names: set<string>,
      refused: seq<bool>, kept: seq<bool>, done: seq<bool>)
    requires |bands| == |hosts| + 1 && |hosts| == |refused| == |kept| == |done| && SpareHole(bands[0], row)
    requires forall i :: 0 <= i < |hosts| ==>
      PassResult(bands[i], bands[i + 1], row, hosts[i], names, false, refused[i], kept[i], done[i])
    ensures SpareHole(bands[|hosts|], row) && forall i :: 0 <= i < |hosts| ==> kept[i]
  {
    if hosts != [] {
      var n := |hosts| - 1;
      SpareHoleIsReportedForever(bands[..|bands| - 1], row, hosts[..n], names, refused[..n], kept[..n], done[..n]);
      assert bands[..|bands| - 1][n] == bands[n];
      SpareHoleStays(bands[n], bands[n + 1], row, hosts[n], names, refused[n], kept[n], done[n]);
    }
  }

  /** A row with one ingress device, and a host that holds its plan and one more
      blackhole of the default route, at another metric. */
  const SPARE_ROW := Row(7, true, Some(NO_FILL), false, ["wg0"], [])

  const SPARE := Route(V4, Table(7), Blackhole, DefaultRoute(V4), "", 1)

  const SPARE_BAND := Band(
    multiset{IngressRule(7, V4, "wg0"), IngressRule(7, V6, "wg0")},
    multiset{Hole(7, V4), Hole(7, V6), SPARE})

  /** There the code cannot finish: without the extra blackhole the host is
      settled, and with it no pass reports clean. */
  lemma SpareHoleExample(after: Band, host: Host, names: set<string>, failed: bool, refused: bool, kept: bool,
      done: bool)
    ensures SpareHole(SPARE_BAND, SPARE_ROW)
    ensures Settled(SPARE_BAND.(routes := SPARE_BAND.routes - multiset{SPARE}), SPARE_ROW, host, names)
    ensures PassResult(SPARE_BAND, after, SPARE_ROW, host, names, failed, refused, kept, done) ==> failed || kept
  {
    assert SPARE.metric != BLACKHOLE_METRIC;
    assert Spare(SPARE_BAND, SPARE_ROW, SPARE);
    assert WantsRule(SPARE_ROW, IngressRule(7, V4, "wg0"));
    assert RulesWanted(SPARE_ROW, SPARE.family);
    var b := SPARE_BAND.(routes := SPARE_BAND.routes - multiset{SPARE});
    forall r | OwnRule(7, r) ensures b.rules[r] == if WantsRule(SPARE_ROW, r) then 1 else 0 {
      assert IngressRule(7, V4, "wg0").family != IngressRule(7, V6, "wg0").family;
    }
    forall r | OwnHole(7, r) ensures b.routes[r] == if WantsHole(SPARE_ROW, r) then 1 else 0 {
    }
  }

  lemma PassAddsNoShadow(r0: multiset<Route>, r1: multiset<Route>, c: Changes, done: bool, w: Want, h: Have, row: Row,
      host: Host, names: set<string>, b: Band)
    requires PassCounts(r0, r1, c, done) && ChangesFor(c, w, h) && Plans(w, row, host)
    requires OwnedRoutePart(h, r0, row.id, DeviceOf(row), names) && Owned(c, h, b, row.id)
    ensures NoNewShadow(r0, r1, row, names)
  {
    forall r | r in r1 && ShadowRoute(row.id, DeviceOf(row), names, r) ensures r in r0 {
      DiffersWithin(c.addFronts, c.delFronts, w.fronts, h.fronts, r => WantsFront(row, host, r),
        r => OwnFront(row.id, DeviceOf(row), names, r), r0, r);
      assert r !in multiset(c.addHoles) && r !in multiset(c.addThrows);
      assert (r0 + multiset(c.addHoles) + multiset(c.addThrows))[r] == r0[r];
      assert r !in multiset(c.addFronts);
    }
  }

  lemma PassOutcome(b: Band, after: Band, c: Changes, w: Want, h: Have, row: Row, host: Host, names: set<string>,
      own: seq<Rule>,
      failed: bool, refused: bool, kept: bool, done: bool)
    requires ChangesFor(c, w, h) && Plans(w, row, host) && Owned(c, h, b, row.id)
    requires OwnedRulePart(h, b.rules, row.id) && OwnedRoutePart(h, b.routes, row.id, DeviceOf(row), names)
    requires Picks(own, after.rules, r => OwnRule(row.id, r))
      && PassLeaves(b.routes, after, c, h, row.id, own, failed, refused, kept, done)
    requires Guarded(b.routes, after, row.id)
    ensures PassResult(b, after, row, host, names, failed, refused, kept, done)
  {
    if !failed {
      if refused {
        var r :| r in c.addRules && r.family !in FamiliesOf(h.holes) + FamiliesOf(c.addHoles);
        NoRuleIsRefused(c, w, h, b, row, host, names, r);
        assert false;
      }
      PassPlansRules(own, after.rules, c, w, h, row);
      KeptExactly(c, w, h, b, after.rules, row);
      if !kept {
        PassPlansRoutes(b.routes, after.routes, c, done, w, h, row, host, names, b);
        PassAddsNoShadow(b.routes, after.routes, c, done, w, h, row, host, names, b);
      }
    }
  }

  /** What one pass over a row reported; no problem at all is a nil error. */
  datatype Report = Report(idProblem: bool, planProblem: bool, provisionProblem: bool, failed: bool, refused: bool,
    kept: bool, shadowed: bool, done: bool) {
    predicate Clean()
    {
      !idProblem && !planProblem && !provisionProblem && !failed && !refused && !kept && !shadowed
    }
  }

  /** A snapshot that is right about one id, whatever it says of the others. */
  ghost predicate Agrees(rules: multiset<Rule>, routes: multiset<Route>, b: Band, id: int)
  {
    && (forall r: Rule :: r.priority == Prio(id) ==> rules[r] == b.rules[r])
    && (forall r: Route :: r.table == Table(id) ==> routes[r] == b.routes[r])
  }

  lemma AgreedParts(h: Have, rules: multiset<Rule>, routes: multiset<Route>, b: Band, id: int, device: string,
      names: set<string>)
    requires Agrees(rules, routes, b, id) && OwnedRulePart(h, rules, id) && OwnedRoutePart(h, routes, id, device, names)
    ensures OwnedRulePart(h, b.rules, id) && OwnedRoutePart(h, b.routes, id, device, names)
  {
  }

  /** With nothing shadowing before a clean pass, nothing shadows after it. */
  lemma StaysUnshadowed(run: Run, h: Have, row: Row, names: set<string>)
    requires Safe(run, row.id) && OwnedRulePart(h, run.first.rules, row.id)
      && OwnedRoutePart(h, run.first.routes, row.id, DeviceOf(row), names)
    requires h.shadowRules == [] && h.shadowRoutes == [] && NoNewShadow(run.first.routes, run.now.routes, row, names)
    ensures Unshadowed(run.now, row, names)
  {
    SafeRunOnlyId(run, row.id, |run.trace|);
    forall r | r in run.now.rules ensures !ShadowRule(row.id, r) {
      assert multiset(h.shadowRules)[r] == if ShadowRule(row.id, r) then run.first.rules[r] else 0;
    }
    forall r | r in run.now.routes ensures !ShadowRoute(row.id, DeviceOf(row), names, r) {
      assert multiset(h.shadowRoutes)[r] == if ShadowRoute(row.id, DeviceOf(row), names, r)
        then run.first.routes[r] else 0;
    }
  }

  /** A pass that reported nothing leaves the row converged, and settled if no front was put off. */
  lemma CleanPassConverges(run: Run, h: Have, row: Row, host: Host, names: set<string>, refused: bool, done: bool)
    requires Safe(run, row.id) && OwnedRulePart(h, run.first.rules, row.id)
      && OwnedRoutePart(h, run.first.routes, row.id, DeviceOf(row), names)
    requires h.shadowRules == [] && h.shadowRoutes == []
      && PassResult(run.first, run.now, row, host, names, false, refused, false, done)
    ensures Converged(run.now, row, host, names) && (done ==> Settled(run.now, row, host, names))
  {
    StaysUnshadowed(run, h, row, names);
  }

  // ----- the whole host -----

  /** The row that counts for an id: the last one listed, or the empty row. */
  function RowOf(rows: seq<Row>, id: int): Row
  {
    if rows == [] then EmptyRow(id)
    else if rows[|rows| - 1].id == id then rows[|rows| - 1]
    else RowOf(rows[..|rows| - 1], id)
  }

  lemma {:induction false} RowOfId(rows: seq<Row>, id: int)
    ensures RowOf(rows, id).id == id && ((forall r :: r in rows ==> r.id != id) ==> RowOf(rows, id) == EmptyRow(id))
  {
    if rows != [] && rows[|rows| - 1].id != id {
      RowOfId(rows[..|rows| - 1], id);
    }
  }

  lemma {:induction false} RowOfListed(rows: seq<Row>, id: int)
    ensures RowOf(rows, id) == EmptyRow(id) || RowOf(rows, id) in rows
  {
    if rows != [] && rows[|rows| - 1].id != id {
      RowOfListed(rows[..|rows| - 1], id);
    }
  }

  /** Containment of every id that had it, after each call and now. */
  ghost predicate ContainmentKept(run: Run)
  {
    && run.before <= run.trace
    && forall other :: Contained(run.first, other) ==>
         Contained(run.now, other) && forall i :: |run.before| <= i < |run.trace| ==> Contained(run.trace[i], other)
  }

  lemma SafeKeepsContainment(run: Run, id: int)
    requires Safe(run, id)
    ensures ContainmentKept(run)
  {
    forall other | Contained(run.first, other) ensures Contained(run.now, other) {
      SafeRunContains(run, id, other, |run.trace|);
    }
    forall other, i | Contained(run.first, other) && |run.before| <= i < |run.trace|
      ensures Contained(run.trace[i], other) {
      SafeRunContains(run, id, other, i + 1);
    }
  }

  lemma ContainmentChains(a: Run, b: Run)
    requires ContainmentKept(a) && ContainmentKept(b) && b.first == a.now && b.before == a.trace
    ensures ContainmentKept(Then(a, b))
  {
    forall other, i | Contained(a.first, other) && |a.before| <= i < |b.trace| ensures Contained(b.trace[i], other) {
      if i < |a.trace| {
        assert b.trace[i] == a.trace[i];
      }
    }
  }

  lemma AgreesStays(rules: multiset<Rule>, routes: multiset<Route>, a: Band, b: Band, id: int, other: int)
    requires OnlyId(a, b, other) && id != other && Agrees(rules, routes, a, id)
    ensures Agrees(rules, routes, b, id)
  {
  }

  lemma SettledStays(a: Band, b: Band, row: Row, host: Host, names: set<string>, other: int)
    requires OnlyId(a, b, other) && row.id != other && Settled(a, row, host, names)
    ensures Settled(b, row, host, names)
  {
  }

  lemma ConvergedStays(a: Band, b: Band, row: Row, host: Host, names: set<string>, other: int)
    requires OnlyId(a, b, other) && row.id != other && Converged(a, row, host, names)
    ensures Converged(b, row, host, names)
  {
    forall r | r in b.rules ensures !ShadowRule(row.id, r) {
      assert ShadowRule(row.id, r) ==> r in a.rules;
    }
    forall r | r in b.routes ensures !ShadowRoute(row.id, DeviceOf(row), names, r) {
      assert ShadowRoute(row.id, DeviceOf(row), names, r) ==> r in a.routes;
    }
  }

  function UplinkId(name: string): Option<int>
  {
    if OwnedId(UPLINK_PREFIX, name).Some? then OwnedId(UPLINK_PREFIX, name) else OwnedId(AWG_UPLINK_PREFIX, name)
  }

  /** An id the host holds something of, added with the empty row unless it has one. */
  function WithOrphan(rows: seq<Row>, byId: map<int, Row>, id: Option<int>): (r: map<int, Row>)
    requires (forall i :: i in byId ==> byId[i] == RowOf(rows, i)) && forall row :: row in rows ==> row.id in byId
    ensures forall i :: i in r ==> r[i] == RowOf(rows, i)
    ensures r.Keys == byId.Keys + if id.Some? then {id.value} else {}
  {
    if id.None? || id.value in byId then byId
    else
      RowOfId(rows, id.value);
      byId[id.value := EmptyRow(id.value)]
  }

  /** What one row's report is worth, whatever later passes over other ids did. */
  ghost predicate RowDone(b: Band, row: Row, host: Host, names: set<string>, report: Report)
  {
    && report.idProblem == !InBand(row.id)
    && (report.Clean() ==> Converged(b, row, host, names))
    && (!report.idProblem && report.done && !report.kept ==> Settled(b, row, host, names))
  }

  lemma RowDoneStays(a: Band, b: Band, row: Row, host: Host, names: set<string>, report: Report, other: int)
    requires RowDone(a, row, host, names, report) && OnlyId(a, b, other) && row.id != other
    ensures RowDone(b, row, host, names, report)
  {
    if report.Clean() {
      ConvergedStays(a, b, row, host, names, other);
    }
    if !report.idProblem && report.done && !report.kept {
      SettledStays(a, b, row, host, names, other);
    }
  }

  /** A pass over a row that no driver works on leaves the devices alone; any
      other one records the devices it left. */
  ghost predicate Moved(after: seq<Host>, before: seq<Host>, now: Host, was: Host, provisions: bool)
  {
    if provisions then after == before + [now] else after == before && now == was
  }

  /** Each row was planned for devices the host really had: those of the snapshot,
      or those its own driver left. */
  ghost predicate Witnessed(hosts: map<int, Host>, rows: seq<Row>, snap: Host, later: seq<Host>)
  {
    forall id :: id in hosts ==>
      hosts[id] == snap || (RowOf(rows, id).enable && RowOf(rows, id).provisions && hosts[id] in later)
  }

  lemma WitnessedNext(hosts: map<int, Host>, rows: seq<Row>, snap: Host, start: seq<Host>, before: seq<Host>,
      after: seq<Host>, id: int, host: Host, now: Host)
    requires start <= before <= after && Witnessed(hosts, rows, snap, before[|start|..])
    requires host == snap
      || (RowOf(rows, id).enable && RowOf(rows, id).provisions && after == before + [now] && host == now)
    ensures start <= after && Witnessed(hosts[id := host], rows, snap, after[|start|..])
  {
    forall x | x in before[|start|..] ensures x in after[|start|..] {
      var i :| 0 <= i < |before[|start|..]| && before[|start|..][i] == x;
      assert after[|start|..][i] == x;
    }
    if host != snap {
      assert after[|start|..][|before| - |start|] == now;
    }
  }

  /** Between the passes of a reconciliation on one snapshot: containment was
      kept, the snapshot is still right about every id not converged yet, every
      report so far still holds, and a host that held every plan saw no call. */
  ghost predicate Reconciling(run: Run, snap: Snapshot, rows: seq<Row>, names: int -> set<string>, reports: map<int,
      Report>, hosts: map<int, Host>)
  {
    && ContainmentKept(run) && hosts.Keys == reports.Keys
    && (forall id :: InBand(id) && id !in reports ==> Agrees(multiset(snap.rules), multiset(snap.routes), run.now, id))
    && (forall id :: id in reports ==> RowDone(run.now, RowOf(rows, id), hosts[id], names(id), reports[id]))
    && (AllSettled(run.first, rows, names, hosts) ==> run.trace == run.before && run.now == run.first)
  }

  ghost predicate AllSettled(b: Band, rows: seq<Row>, names: int -> set<string>, hosts: map<int, Host>)
  {
    forall id :: id in hosts && InBand(id) ==> Settled(b, RowOf(rows, id), hosts[id], names(id))
  }

  lemma ReconcilingStarts(b: Band, t: seq<Band>, snap: Snapshot, rows: seq<Row>, names: int -> set<string>)
    requires multiset(snap.rules) == b.rules && multiset(snap.routes) == b.routes
    ensures Reconciling(Run(b, t, t, b), snap, rows, names, map[], map[])
  {
    NoCall(b, t, 0);
    SafeKeepsContainment(Run(b, t, t, b), 0);
  }

  lemma ReconcilingAgrees(run: Run, next: Run, snap: Snapshot, id: int, j: int)
    requires Safe(next, id) && Agrees(multiset(snap.rules), multiset(snap.routes), next.first, j) && j != id
    ensures Agrees(multiset(snap.rules), multiset(snap.routes), next.now, j)
  {
    SafeRunOnlyId(next, id, |next.trace|);
    AgreesStays(multiset(snap.rules), multiset(snap.routes), next.first, next.now, j, id);
  }

  /** One more id converged. */
  lemma ReconcilingNext(run: Run, next: Run, snap: Snapshot, rows: seq<Row>, names: int -> set<string>,
      reports: map<int, Report>, hosts: map<int, Host>,
      id: int, report: Report, host: Host)
    requires Reconciling(run, snap, rows, names, reports, hosts) && id !in reports
    requires Safe(next, id) && next.first == run.now && next.before == run.trace
    requires RowDone(next.now, RowOf(rows, id), host, names(id), report)
    requires !report.idProblem && Settled(next.first, RowOf(rows, id), host, names(id)) ==> next.trace == next.before
    requires report.idProblem ==> next.trace == next.before
    ensures Reconciling(Then(run, next), snap, rows, names, reports[id := report], hosts[id := host])
  {
    SafeKeepsContainment(next, id);
    ContainmentChains(run, next);
    forall j | InBand(j) && j !in reports[id := report]
      ensures Agrees(multiset(snap.rules), multiset(snap.routes), next.now, j) {
      ReconcilingAgrees(run, next, snap, id, j);
    }
    forall j | j in reports[id := report]
      ensures RowDone(next.now, RowOf(rows, j), hosts[id := host][j], names(j), reports[id := report][j]) {
      if j != id {
        RowOfId(rows, j);
        SafeRunOnlyId(next, id, |next.trace|);
        RowDoneStays(run.now, next.now, RowOf(rows, j), hosts[j], names(j), reports[j], id);
      }
    }
    if AllSettled(run.first, rows, names, hosts[id := host]) {
      StillQuiet(run.first, rows, names, hosts, id, host);
      RowOfId(rows, id);
    }
  }

  lemma StillQuiet(b: Band, rows: seq<Row>, names: int -> set<string>, hosts: map<int, Host>, id: int, host: Host)
    requires AllSettled(b, rows, names, hosts[id := host]) && id !in hosts
    ensures AllSettled(b, rows, names, hosts) && (InBand(id) ==> Settled(b, RowOf(rows, id), host, names(id)))
  {
    forall j | j in hosts && InBand(j) ensures Settled(b, RowOf(rows, j), hosts[j], names(j)) {
      assert j in hosts[id := host] && hosts[id := host][j] == hosts[j];
    }
    assert id in hosts[id := host] && hosts[id := host][id] == host;
  }

  /** A settled row is settled for other devices exactly when they put its front up
      or down alike, or it has no front to put up. */
  lemma SettledForTheSameFronts(b: Band, row: Row, seen: Host, other: Host, names: set<string>)
    requires Settled(b, row, seen, names)
    ensures Settled(b, row, other, names) <==>
      !row.enable || (forall f :: !FillCarries(FillOf(row), f))
        || (FrontIsUp(FillOf(row), seen) <==> FrontIsUp(FillOf(row), other))
  {
    var fill := FillOf(row);
    if row.enable && (FrontIsUp(fill, seen) <==> !FrontIsUp(fill, other)) {
      forall f | FillCarries(fill, f) ensures !Settled(b, row, other, names) {
        var r := Front(row.id, f, fill.device);
        assert OwnFront(row.id, DeviceOf(row), names, r);
        assert WantsFront(row, seen, r) <==> !WantsFront(row, other, r);
      }
    }
  }

  /** A reconciliation that settled every id leaves nothing to do for the next one,
      as long as the fronts of the enabled rows are up or down as they were. */
  lemma NextReconcileFindsNothing(b: Band, rows: seq<Row>, names: int -> set<string>, first: map<int, Host>,
      second: map<int, Host>)
    requires forall id :: InBand(id) ==> Settled(b, RowOf(rows, id), HostFor(first, id), names(id))
    requires forall id :: id in second && RowOf(rows, id).enable ==>
      id in first && (FrontIsUp(FillOf(RowOf(rows, id)), first[id]) <==> FrontIsUp(FillOf(RowOf(rows, id)), second[id]))
    ensures AllSettled(b, rows, names, second)
  {
    forall id | id in second && InBand(id) ensures Settled(b, RowOf(rows, id), second[id], names(id)) {
      SettledForTheSameFronts(b, RowOf(rows, id), HostFor(first, id), second[id], names(id));
    }
  }

  /** Where no driver works on an enabled row's device, being settled for the
      devices there were to begin with is enough. */
  lemma SettledBeforehand(b: Band, rows: seq<Row>, names: int -> set<string>, start: Host, hosts: map<int, Host>,
      later: seq<Host>)
    requires Witnessed(hosts, rows, start, later) && forall r :: r in rows ==> !(r.enable && r.provisions)
    requires forall id :: InBand(id) ==> Settled(b, RowOf(rows, id), start, names(id))
    ensures AllSettled(b, rows, names, hosts)
  {
    forall id | id in hosts && InBand(id) ensures Settled(b, RowOf(rows, id), hosts[id], names(id)) {
      RowOfListed(rows, id);
    }
  }

  /** An id of which nothing is held needs nothing for the empty row. */
  lemma NothingHeldIsSettled(b: Band, rows: seq<Row>, id: int, host: Host, names: set<string>)
    requires RowOf(rows, id) == EmptyRow(id)
    requires (forall r :: r in b.rules ==> r.priority != Prio(id)) && forall r :: r in b.routes ==> r.table != Table(id)
    ensures Settled(b, RowOf(rows, id), host, names)
  {
  }

  function HostFor(hosts: map<int, Host>, id: int): Host
  {
    if id in hosts then hosts[id] else Host({}, {})
  }

  /** An id without a row of which the snapshot holds nothing stays empty. */
  lemma UnlistedIsSettled(rows: seq<Row>, byId: map<int, Row>, snap: Snapshot, b: Band, id: int, host: Host,
      names: set<string>)
    requires InBand(id) && id !in byId && Agrees(multiset(snap.rules), multiset(snap.routes), b, id)
    requires forall r :: r in rows ==> r.id in byId
    requires forall r :: r in snap.rules && PrioId(r.priority).Some? ==> PrioId(r.priority).value in byId
    requires forall r :: r in snap.routes && TableId(r.table).Some? ==> TableId(r.table).value in byId
    ensures Settled(b, RowOf(rows, id), host, names)
  {
    RowOfId(rows, id);
    assert PrioId(Prio(id)) == Some(id) && TableId(Table(id)) == Some(id);
    forall r | r in b.rules ensures r.priority != Prio(id) {
      assert r.priority == Prio(id) ==> r in multiset(snap.rules);
    }
    forall r | r in b.routes ensures r.table != Table(id) {
      assert r.table == Table(id) ==> r in multiset(snap.routes);
    }
    NothingHeldIsSettled(b, rows, id, host, names);
  }
}
