/** A kernel whose every call may fail, and the runs of calls that cannot release
    traffic an id contains. */
module EgressKernel {
  import opened Results
  import opened Egress

  /** How one kernel call ended. `NotReady` is a front device that is absent or
      has the family switched off; every outcome but `Done` changed nothing. */
  datatype Outcome = Done | NotInstalled | NotReady | Refused

  /** The host: its rules and routes, its devices, the state after every call made,
      and the devices after every time a driver worked on them. */
  class Kernel {
    var rules: multiset<Rule>
    var routes: multiset<Route>
    var host: Host
    ghost var trace: seq<Band>
    ghost var hosts: seq<Host>

    function View(): Band
      reads this
    {
      Band(rules, routes)
    }

    constructor ()
      ensures rules == multiset{} && routes == multiset{} && trace == [] && hosts == []
    {
      rules, routes, host, trace, hosts := multiset{}, multiset{}, Host({}, {}), [], [];
    }

    method AddRule(r: Rule) returns (o: Outcome)
      modifies `rules, `trace
      ensures trace == old(trace) + [View()]
      ensures rules == if o == Done then old(rules) + multiset{r} else old(rules)
    {
      o := *;
      if o == Done {
        rules := rules + multiset{r};
      }
      trace := trace + [View()];
    }

    method DelRule(r: Rule) returns (o: Outcome)
      modifies `rules, `trace
      ensures trace == old(trace) + [View()]
      ensures o == Done ==> r in old(rules) && rules == old(rules) - multiset{r}
      ensures o != Done ==> rules == old(rules)
      ensures o == NotInstalled ==> r !in old(rules)
    {
      o := *;
      if r !in rules {
        o := NotInstalled;
      } else if o == NotInstalled {
        o := Refused;
      } else if o == Done {
        rules := rules - multiset{r};
      }
      trace := trace + [View()];
    }

    method AddRoute(r: Route) returns (o: Outcome)
      modifies `routes, `trace
      ensures trace == old(trace) + [View()]
      ensures routes == if o == Done then old(routes) + multiset{r} else old(routes)
    {
      o := *;
      if o == Done {
        routes := routes + multiset{r};
      }
      trace := trace + [View()];
    }

    method DelRoute(r: Route) returns (o: Outcome)
      modifies `routes, `trace
      ensures trace == old(trace) + [View()]
      ensures o == Done ==> r in old(routes) && routes == old(routes) - multiset{r}
      ensures o != Done ==> routes == old(routes)
      ensures o == NotInstalled ==> r !in old(routes)
    {
      o := *;
      if r !in routes {
        o := NotInstalled;
      } else if o == NotInstalled {
        o := Refused;
      } else if o == Done {
        routes := routes - multiset{r};
      }
      trace := trace + [View()];
    }

    /** A listing of everything the band holds, in some order, or a failed read. */
    method Snapshot() returns (snap: Option<Snapshot>)
      ensures snap.Some? ==>
        multiset(snap.value.rules) == rules && multiset(snap.value.routes) == routes && snap.value.host == host
    {
      var readable := *;
      if !readable {
        return None;
      }
      var rs := ListRules(rules);
      var ts := ListRoutes(routes);
      return Some(Seen(rs, ts, host));
    }

    /** A driver bringing its device up or down may change devices and addresses only. */
    method Provision() returns (ok: bool)
      modifies `host, `hosts
      ensures hosts == old(hosts) + [host]
    {
      ok := *;
      host := *;
      hosts := hosts + [host];
    }
  }

  datatype Snapshot = Seen(rules: seq<Rule>, routes: seq<Route>, host: Host)

  method ListRules(items: multiset<Rule>) returns (list: seq<Rule>)
    ensures multiset(list) == items
  {
    list := [];
    var rest := items;
    while rest != multiset{}
      invariant multiset(list) + rest == items
      decreases |rest|
    {
      var r :| r in rest;
      list, rest := list + [r], rest - multiset{r};
    }
  }

  method ListRoutes(items: multiset<Route>) returns (list: seq<Route>)
    ensures multiset(list) == items
  {
    list := [];
    var rest := items;
    while rest != multiset{}
      invariant multiset(list) + rest == items
      decreases |rest|
    {
      var r :| r in rest;
      list, rest := list + [r], rest - multiset{r};
    }
  }


  // ----- steps that cannot release traffic -----

  /** One kernel call on behalf of an id: it touches only that id's rules and
      table, adds a rule only over a blackhole of its family, and removes a
      blackhole only where no rule of its family is left. */
  ghost predicate SafeStep(a: Band, b: Band, id: int)
  {
    && (forall r :: b.rules[r] != a.rules[r] ==> OwnRule(id, r))
    && (forall r :: b.rules[r] > a.rules[r] ==> HasHole(b.routes, id, r.family))
    && (forall r :: b.routes[r] != a.routes[r] ==> r.table == Table(id))
    && (forall r :: b.routes[r] < a.routes[r] && OwnHole(id, r) ==> !HasRule(b.rules, id, r.family))
  }

  lemma SafeStepContains(a: Band, b: Band, id: int, other: int)
    requires SafeStep(a, b, id) && Contained(a, other)
    ensures Contained(b, other)
  {
    forall f: Family | HasRule(b.rules, other, f) ensures HasHole(b.routes, other, f) {
      var rule :| rule in b.rules && OwnRule(other, rule) && rule.family == f;
      if b.rules[rule] <= a.rules[rule] {
        assert HasRule(a.rules, other, f);
        var hole :| hole in a.routes && OwnHole(other, hole) && hole.family == f;
        assert hole in b.routes;
      }
    }
  }

  /** A pass so far: the state it began in, the calls made before it and since
      (each by the state it left), and the state now. */
  datatype Run = Run(first: Band, before: seq<Band>, trace: seq<Band>, now: Band)

  /** The state once `i` calls of the whole trace were made. */
  ghost function StateAt(run: Run, i: int): Band
    requires |run.before| <= i <= |run.trace|
  {
    if i == |run.before| then run.first else run.trace[i - 1]
  }

  /** Every call of the pass is a safe step from the state before it. */
  ghost predicate Safe(run: Run, id: int)
  {
    && run.before <= run.trace && run.now == StateAt(run, |run.trace|)
    && forall i :: |run.before| < i <= |run.trace| ==> SafeStep(StateAt(run, i - 1), StateAt(run, i), id)
  }

  function Call(run: Run, next: Band): Run
  {
    run.(trace := run.trace + [next], now := next)
  }

  lemma NoCall(b: Band, t: seq<Band>, id: int)
    ensures Safe(Run(b, t, t, b), id)
  {
  }

  lemma SafeCall(run: Run, id: int, next: Band)
    requires Safe(run, id) && SafeStep(run.now, next, id)
    ensures Safe(Call(run, next), id)
  {
    var longer := Call(run, next);
    forall i | |run.before| <= i <= |run.trace| ensures StateAt(longer, i) == StateAt(run, i) {
      assert i > |run.before| ==> longer.trace[i - 1] == run.trace[i - 1];
    }
    forall i | |run.before| < i <= |longer.trace| ensures SafeStep(StateAt(longer, i - 1), StateAt(longer, i), id) {
      if i <= |run.trace| {
        assert SafeStep(StateAt(run, i - 1), StateAt(run, i), id);
      }
    }
  }

  /** A run that failed to change anything in its last call is as safe. */
  lemma IdleCall(run: Run, id: int)
    requires Safe(run, id)
    ensures Safe(Call(run, run.now), id)
  {
    SafeCall(run, id, run.now);
  }

  function Then(a: Run, b: Run): Run
  {
    Run(a.first, a.before, b.trace, b.now)
  }

  /** Containment of any id survives every single call of a safe run. */
  lemma {:induction false} SafeRunContains(run: Run, id: int, other: int, i: int)
    requires Safe(run, id) && Contained(run.first, other) && |run.before| <= i <= |run.trace|
    ensures Contained(StateAt(run, i), other)
    decreases i
  {
    if i > |run.before| {
      SafeRunContains(run, id, other, i - 1);
      SafeStepContains(StateAt(run, i - 1), StateAt(run, i), id, other);
    }
  }

  /** Nothing of any other id is touched. */
  ghost predicate OnlyId(a: Band, b: Band, id: int)
  {
    && (forall r: Rule :: !OwnRule(id, r) ==> b.rules[r] == a.rules[r])
    && (forall r: Route :: r.table != Table(id) ==> b.routes[r] == a.routes[r])
  }

  lemma {:induction false} SafeRunOnlyId(run: Run, id: int, i: int)
    requires Safe(run, id) && |run.before| <= i <= |run.trace|
    ensures OnlyId(run.first, StateAt(run, i), id)
    decreases i
  {
    if i > |run.before| {
      SafeRunOnlyId(run, id, i - 1);
      assert SafeStep(StateAt(run, i - 1), StateAt(run, i), id);
    }
  }
}
