/** The plan of one row and the objects an id owns, built in loops as the source builds them. */
module EgressPlan {
  import opened Egress
  import opened Diffs

  /** Every member listed once, and nothing else. */
  ghost predicate Lists<T(!new)>(list: seq<T>, wanted: T -> bool)
  {
    forall x :: multiset(list)[x] == if wanted(x) then 1 else 0
  }

  lemma ListsOneMore<T(!new)>(list: seq<T>, wanted: T -> bool, x: T, grown: T -> bool)
    requires Lists(list, wanted) && !wanted(x) && grown(x) && forall y :: y != x ==> (grown(y) <==> wanted(y))
    ensures Lists(list + [x], grown)
  {
  }

  lemma ListsSame<T(!new)>(list: seq<T>, wanted: T -> bool, other: T -> bool)
    requires Lists(list, wanted) && forall y :: wanted(y) <==> other(y)
    ensures Lists(list, other)
  {
  }

  lemma ListsMember<T(!new)>(list: seq<T>, wanted: T -> bool, x: T)
    requires Lists(list, wanted)
    ensures x in list <==> wanted(x)
  {
    assert multiset(list)[x] == if wanted(x) then 1 else 0;
    assert x in list <==> x in multiset(list);
  }

  lemma ListsFresh<T(!new)>(list: seq<T>, wanted: T -> bool, i: int)
    requires Lists(list, wanted) && 0 <= i < |list|
    ensures list[i] !in list[..i]
  {
    assert list == list[..i] + [list[i]] + list[i + 1..];
    assert multiset(list) == multiset(list[..i]) + multiset{list[i]} + multiset(list[i + 1..]);
    assert multiset(list)[list[i]] <= 1;
  }

  /** The non-empty names, once each. */
  method UniqueNames(names: seq<string>) returns (out: seq<string>)
    ensures Lists(out, x => x in names && x != "")
  {
    out := [];
    for i := 0 to |names|
      invariant Lists(out, x => x in names[..i] && x != "")
    {
      TakeOneMore(names, i);
      ListsMember(out, x => x in names[..i] && x != "", names[i]);
      if names[i] != "" && names[i] !in out {
        ListsOneMore(out, x => x in names[..i] && x != "", names[i], x => x in names[..i + 1] && x != "");
        out := out + [names[i]];
      } else {
        ListsSame(out, x => x in names[..i] && x != "", x => x in names[..i + 1] && x != "");
      }
    }
    assert names[..|names|] == names;
  }

  lemma PoolOneMore(sources: seq<Prefix>, i: int, p: Prefix)
    requires 0 <= i < |sources|
    ensures PoolOf(sources[..i + 1], p) <==> PoolOf(sources[..i], p) || (sources[i].Valid() && sources[i].Masked() == p)
  {
    TakeOneMore(sources, i);
    if PoolOf(sources[..i], p) {
      var s :| s in sources[..i] && s.Valid() && s.Masked() == p;
      assert s in sources[..i + 1];
    }
    if sources[i].Valid() && sources[i].Masked() == p {
      assert sources[i] in sources[..i + 1];
    }
  }

  /** The valid prefixes, masked, once each. */
  method UniquePrefixes(sources: seq<Prefix>) returns (out: seq<Prefix>)
    ensures Lists(out, p => PoolOf(sources, p))
  {
    out := [];
    for i := 0 to |sources|
      invariant Lists(out, p => PoolOf(sources[..i], p))
    {
      var s := sources[i];
      forall p ensures PoolOf(sources[..i + 1], p) <==>
        PoolOf(sources[..i], p) || (sources[i].Valid() && sources[i].Masked() == p) {
        PoolOneMore(sources, i, p);
      }
      if s.Valid() && s.Masked() !in out {
        ListsMember(out, p => PoolOf(sources[..i], p), s.Masked());
        ListsOneMore(out, p => PoolOf(sources[..i], p), s.Masked(), p => PoolOf(sources[..i + 1], p));
        out := out + [s.Masked()];
      } else {
        if s.Valid() {
          ListsMember(out, p => PoolOf(sources[..i], p), s.Masked());
        }
        ListsSame(out, p => PoolOf(sources[..i], p), p => PoolOf(sources[..i + 1], p));
      }
    }
    assert sources[..|sources|] == sources;
  }

  /** Every object one row asks for. */
  datatype Want = Want(device: string, holes: seq<Route>, throws: seq<Route>, fronts: seq<Route>, rules: seq<Rule>)

  ghost predicate Plans(w: Want, row: Row, host: Host)
  {
    && w.device == (if row.enable then FillOf(row).device else "")
    && Lists(w.holes, r => WantsHole(row, r))
    && Lists(w.throws, r => WantsThrow(row, r))
    && Lists(w.fronts, r => WantsFront(row, host, r))
    && Lists(w.rules, r => WantsRule(row, r))
  }

  /** One blackhole a family, and the front where it is up and carries the family. */
  method PlanDefaults(row: Row, host: Host) returns (holes: seq<Route>, fronts: seq<Route>)
    requires row.enable
    ensures Lists(holes, r => WantsHole(row, r)) && Lists(fronts, r => WantsFront(row, host, r))
  {
    var fill := FillOf(row);
    var present := FrontIsUp(fill, host);
    holes := [Hole(row.id, V4), Hole(row.id, V6)];
    fronts := [];
    if fill.device != "" && present && FillCarries(fill, V4) {
      fronts := fronts + [Front(row.id, V4, fill.device)];
    }
    if fill.device != "" && present && FillCarries(fill, V6) {
      fronts := fronts + [Front(row.id, V6, fill.device)];
    }
  }

  predicate IngressRuleOf(id: int, names: seq<string>, r: Rule)
  {
    r.iif in names && r == IngressRule(id, r.family, r.iif)
  }

  /** One rule a family for every ingress device. */
  method PlanIngress(id: int, names: seq<string>, ghost wanted: string -> bool) returns (rules: seq<Rule>)
    requires Lists(names, wanted)
    ensures Lists(rules, r => IngressRuleOf(id, names, r))
  {
    rules := [];
    for i := 0 to |names|
      invariant Lists(rules, r => IngressRuleOf(id, names[..i], r))
    {
      TakeOneMore(names, i);
      ListsFresh(names, wanted, i);
      var rule4, rule6 := IngressRule(id, V4, names[i]), IngressRule(id, V6, names[i]);
      ghost var half := (r: Rule) => IngressRuleOf(id, names[..i], r) || r == rule4;
      forall r: Rule ensures IngressRuleOf(id, names[..i + 1], r) <==> half(r) || r == rule6 {
        assert r.family == V4 || r.family == V6;
      }
      ListsOneMore(rules, r => IngressRuleOf(id, names[..i], r), rule4, half);
      ListsOneMore(rules + [rule4], half, rule6, r => IngressRuleOf(id, names[..i + 1], r));
      rules := rules + [rule4] + [rule6];
    }
    assert names[..|names|] == names;
  }

  predicate SourceRuleOf(id: int, pools: seq<Prefix>, r: Rule)
  {
    r.src.Some? && r.src.value in pools && r == SourceRule(id, r.src.value)
  }

  predicate ThrowOf(id: int, pools: seq<Prefix>, r: Route)
  {
    r.dst in pools && r == ThrowFor(id, r.dst)
  }

  /** One rule and one throw for every source pool, in the pool's own family only. */
  method PlanSources(id: int, pools: seq<Prefix>, ghost wanted: Prefix -> bool)
      returns (rules: seq<Rule>, throws: seq<Route>)
    requires Lists(pools, wanted)
    ensures Lists(rules, r => SourceRuleOf(id, pools, r)) && Lists(throws, r => ThrowOf(id, pools, r))
  {
    rules, throws := [], [];
    for i := 0 to |pools|
      invariant Lists(rules, r => SourceRuleOf(id, pools[..i], r))
      invariant Lists(throws, r => ThrowOf(id, pools[..i], r))
    {
      TakeOneMore(pools, i);
      ListsFresh(pools, wanted, i);
      ListsOneMore(rules, r => SourceRuleOf(id, pools[..i], r), SourceRule(id, pools[i]),
        r => SourceRuleOf(id, pools[..i + 1], r));
      ListsOneMore(throws, r => ThrowOf(id, pools[..i], r), ThrowFor(id, pools[i]),
        r => ThrowOf(id, pools[..i + 1], r));
      rules := rules + [SourceRule(id, pools[i])];
      throws := throws + [ThrowFor(id, pools[i])];
    }
    assert pools[..|pools|] == pools;
  }

  predicate MarkRuleOf(row: Row, r: Rule)
  {
    FillOf(row).marked && r == MarkRule(row.id, r.family)
  }

  method PlanMarks(row: Row) returns (rules: seq<Rule>)
    ensures Lists(rules, r => MarkRuleOf(row, r))
  {
    rules := [];
    if FillOf(row).marked {
      rules := [MarkRule(row.id, V4), MarkRule(row.id, V6)];
      assert forall r: Rule :: r.family == V4 || r.family == V6;
    }
  }

  lemma ListsJoin<T(!new)>(a: seq<T>, left: T -> bool, b: seq<T>, right: T -> bool, both: T -> bool)
    requires Lists(a, left) && Lists(b, right)
    requires forall x :: !(left(x) && right(x)) && (both(x) <==> left(x) || right(x))
    ensures Lists(a + b, both)
  {
  }

  lemma RulesAreWanted(row: Row, names: seq<string>, pools: seq<Prefix>, ingress: seq<Rule>, sources: seq<Rule>,
      marks: seq<Rule>)
    requires row.enable && Lists(names, x => x in row.ingress && x != "") && Lists(pools, p => PoolOf(row.sources, p))
    requires Lists(ingress, r => IngressRuleOf(row.id, names, r))
      && Lists(sources, r => SourceRuleOf(row.id, pools, r)) && Lists(marks, r => MarkRuleOf(row, r))
    ensures Lists(ingress + sources + marks, r => WantsRule(row, r))
  {
    forall x ensures x in names <==> x in row.ingress && x != "" {
      ListsMember(names, x => x in row.ingress && x != "", x);
    }
    forall p ensures p in pools <==> PoolOf(row.sources, p) {
      ListsMember(pools, p => PoolOf(row.sources, p), p);
    }
    var two := (r: Rule) => IngressRuleOf(row.id, names, r) || SourceRuleOf(row.id, pools, r);
    ListsJoin(ingress, r => IngressRuleOf(row.id, names, r), sources, r => SourceRuleOf(row.id, pools, r), two);
    ListsJoin(ingress + sources, two, marks, r => MarkRuleOf(row, r), r => WantsRule(row, r));
  }

  method PlanRules(row: Row) returns (rules: seq<Rule>, throws: seq<Route>)
    requires row.enable
    ensures Lists(rules, r => WantsRule(row, r)) && Lists(throws, r => WantsThrow(row, r))
  {
    var names := UniqueNames(row.ingress);
    var ingress := PlanIngress(row.id, names, x => x in row.ingress && x != "");
    var pools := UniquePrefixes(row.sources);
    var sources, exceptions := PlanSources(row.id, pools, p => PoolOf(row.sources, p));
    var marks := PlanMarks(row);
    RulesAreWanted(row, names, pools, ingress, sources, marks);
    forall r ensures ThrowOf(row.id, pools, r) <==> WantsThrow(row, r) {
      ListsMember(pools, p => PoolOf(row.sources, p), r.dst);
    }
    ListsSame(exceptions, r => ThrowOf(row.id, pools, r), r => WantsThrow(row, r));
    return ingress + sources + marks, exceptions;
  }

  /** A disabled row asks for nothing; a row without a usable driver still gets
      its blackholes and rules, and the problem is reported. */
  method Plan(row: Row, host: Host) returns (w: Want, problem: bool)
    ensures Plans(w, row, host) && (problem <==> row.enable && row.fill.None?)
  {
    if !row.enable {
      return Want("", [], [], [], []), false;
    }
    var holes, fronts := PlanDefaults(row, host);
    var rules, throws := PlanRules(row);
    return Want(FillOf(row).device, holes, throws, fronts, rules), row.fill.None?;
  }

  // ----- what an id owns -----

  /** The part of a snapshot one id owns, and the foreign objects that defeat its containment. */
  datatype Have = Have(holes: seq<Route>, fronts: seq<Route>, throws: seq<Route>, rules: seq<Rule>,
    shadowRules: seq<Rule>, shadowRoutes: seq<Route>)

  /** Exactly the members of `all` that satisfy a predicate, as often as they occur. */
  ghost predicate Picks<T(!new)>(part: seq<T>, all: multiset<T>, owned: T -> bool)
  {
    forall x :: multiset(part)[x] == if owned(x) then all[x] else 0
  }

  lemma PicksOneMore<T(!new)>(part: seq<T>, all: multiset<T>, owned: T -> bool, x: T)
    requires Picks(part, all, owned)
    ensures Picks(if owned(x) then part + [x] else part, all + multiset{x}, owned)
  {
  }

  ghost predicate OwnedRulePart(h: Have, rules: multiset<Rule>, id: int)
  {
    Picks(h.rules, rules, r => OwnRule(id, r)) && Picks(h.shadowRules, rules, r => ShadowRule(id, r))
  }

  ghost predicate OwnedRoutePart(h: Have, routes: multiset<Route>, id: int, device: string, names: set<string>)
  {
    && Picks(h.holes, routes, r => OwnHole(id, r)) && Picks(h.fronts, routes, r => OwnFront(id, device, names, r))
    && Picks(h.throws, routes, r => OwnThrow(id, r))
      && Picks(h.shadowRoutes, routes, r => ShadowRoute(id, device, names, r))
  }

  /** One rule of the snapshot sorted by who owns it. */
  function SortRule(h: Have, rule: Rule, id: int): Have
  {
    if rule.priority != Prio(id) then h
    else if rule.table != Table(id) then h.(shadowRules := h.shadowRules + [rule])
    else h.(rules := h.rules + [rule])
  }

  /** One route of the snapshot sorted by who owns it; a foreign route that is not
      unicast is left alone without a word. */
  function SortRoute(h: Have, route: Route, id: int, device: string, names: set<string>): Have
  {
    if route.table != Table(id) then h
    else if route.kind == Blackhole && route.dst == DefaultRoute(route.family) then h.(holes := h.holes + [route])
    else if route.kind == Unicast && route.dst == DefaultRoute(route.family)
      && (OwnsDevice(device, route.device) || route.device in names) then
      h.(fronts := h.fronts + [route])
    else if route.kind == Throw then h.(throws := h.throws + [route])
    else if route.kind == Unicast then h.(shadowRoutes := h.shadowRoutes + [route])
    else h
  }

  lemma SortRuleOwns(h: Have, rules: multiset<Rule>, rule: Rule, id: int)
    requires OwnedRulePart(h, rules, id)
    ensures OwnedRulePart(SortRule(h, rule, id), rules + multiset{rule}, id)
  {
    PicksOneMore(h.rules, rules, r => OwnRule(id, r), rule);
    PicksOneMore(h.shadowRules, rules, r => ShadowRule(id, r), rule);
  }

  lemma SortRouteOwns(h: Have, routes: multiset<Route>, route: Route, id: int, device: string, names: set<string>)
    requires OwnedRoutePart(h, routes, id, device, names)
    ensures OwnedRoutePart(SortRoute(h, route, id, device, names), routes + multiset{route}, id, device, names)
  {
    PicksOneMore(h.holes, routes, r => OwnHole(id, r), route);
    PicksOneMore(h.fronts, routes, r => OwnFront(id, device, names, r), route);
    PicksOneMore(h.throws, routes, r => OwnThrow(id, r), route);
    PicksOneMore(h.shadowRoutes, routes, r => ShadowRoute(id, device, names, r), route);
  }

  method OwnedRules(rules: seq<Rule>, id: int) returns (h: Have)
    ensures OwnedRulePart(h, multiset(rules), id) && h == Have([], [], [], h.rules, h.shadowRules, [])
  {
    h := Have([], [], [], [], [], []);
    for i := 0 to |rules|
      invariant OwnedRulePart(h, multiset(rules[..i]), id) && h == Have([], [], [], h.rules, h.shadowRules, [])
    {
      TakeOneMore(rules, i);
      SortRuleOwns(h, multiset(rules[..i]), rules[i], id);
      h := SortRule(h, rules[i], id);
    }
    assert rules[..|rules|] == rules;
  }

  method OwnedView(rules: seq<Rule>, routes: seq<Route>, id: int, device: string, names: set<string>) returns (h: Have)
    ensures OwnedRulePart(h, multiset(rules), id) && OwnedRoutePart(h, multiset(routes), id, device, names)
  {
    var sorted := OwnedRules(rules, id);
    h := sorted;
    for i := 0 to |routes|
      invariant h == Have(h.holes, h.fronts, h.throws, sorted.rules, sorted.shadowRules, h.shadowRoutes)
      invariant OwnedRoutePart(h, multiset(routes[..i]), id, device, names)
    {
      TakeOneMore(routes, i);
      SortRouteOwns(h, multiset(routes[..i]), routes[i], id, device, names);
      h := SortRoute(h, routes[i], id, device, names);
    }
    assert routes[..|routes|] == routes;
  }
}
