/** Policy routing as the egress manager sees it: rules, routes, the objects an
    id owns, the plan of one row, and the kernel's lookup. */
module Egress {
  import opened Results

  datatype Family = V4 | V6

  function Width(f: Family): nat
  {
    if f == V4 then 32 else 128
  }

  /** An address and a prefix length; `addr` may carry host bits. */
  datatype Prefix = Prefix(family: Family, addr: seq<bool>, len: int) {
    predicate Valid()
    {
      |addr| == Width(family) && 0 <= len <= |addr|
    }

    function Masked(): Prefix
      requires Valid()
    {
      Prefix(family, addr[..len] + Zeros(|addr| - len), len)
    }

    predicate Contains(f: Family, address: seq<bool>)
    {
      f == family && 0 <= len <= |addr| && len <= |address| && addr[..len] == address[..len]
    }
  }

  function Zeros(n: nat): seq<bool>
  {
    seq(n, _ => false)
  }

  function DefaultRoute(f: Family): Prefix
  {
    Prefix(f, Zeros(Width(f)), 0)
  }

  lemma MaskedContainsTheSame(p: Prefix, f: Family, address: seq<bool>)
    requires p.Valid()
    ensures p.Masked().Valid() && (p.Masked().Contains(f, address) <==> p.Contains(f, address))
  {
    assert p.Masked().addr[..p.len] == p.addr[..p.len];
  }

  /** One `ip rule`: an empty device, a zero mark and no source select nothing by it. */
  datatype Rule = Rule(family: Family, priority: int, iif: string, table: int, mark: int, src: Option<Prefix>)

  datatype RouteType = Unicast | Blackhole | Throw | Other

  datatype Route = Route(family: Family, table: int, kind: RouteType, dst: Prefix, device: string, metric: int)

  const FRONT_METRIC := 100
  const BLACKHOLE_METRIC := 4096

  // ----- the id band -----

  const MIN_ID := 1
  const MAX_ID := 999
  const TABLE_BASE := 30000
  const PRIO_BASE := 31000
  const MARK_BASE := 0x0e00_0000

  predicate InBand(id: int)
  {
    MIN_ID <= id <= MAX_ID
  }

  function Table(id: int): int
  {
    TABLE_BASE + id
  }

  function Prio(id: int): int
  {
    PRIO_BASE + id
  }

  /** An id is below 1024 and the base has no low bits, so the bitwise or is a sum. */
  function Mark(id: int): int
  {
    MARK_BASE + id
  }

  function PrioId(priority: int): Option<int>
  {
    if InBand(priority - PRIO_BASE) then Some(priority - PRIO_BASE) else None
  }

  function TableId(table: int): Option<int>
  {
    if InBand(table - TABLE_BASE) then Some(table - TABLE_BASE) else None
  }

  function Decimal(n: nat): string
  {
    if n < 10 then [DIGITS[n]] else Decimal(n / 10) + [DIGITS[n % 10]]
  }

  const DIGITS := "0123456789"

  function DigitOf(c: char): Option<nat>
  {
    if '0' <= c <= '9' then Some((c - '0') as nat) else None
  }

  function Digits(s: string): Option<nat>
  {
    if s == "" then None
    else
      match DigitOf(s[|s| - 1])
      case None => None
      case Some(d) =>
        if |s| == 1 then Some(d)
        else
          match Digits(s[..|s| - 1])
          case None => None
          case Some(high) => Some(10 * high + d)
  }

  function Signed(sign: int, digits: Option<nat>): Option<int>
  {
    if digits.None? then None else Some(sign * digits.value)
  }

  /** A decimal integer with an optional sign. */
  function Atoi(s: string): Option<int>
  {
    if s != "" && s[0] == '+' then Signed(1, Digits(s[1..]))
    else if s != "" && s[0] == '-' then Signed(-1, Digits(s[1..]))
    else Signed(1, Digits(s))
  }

  /** The id a device name in one namespace spells, read back the way the source
      reads it: cut the prefix, parse, and accept only what prints to the same name. */
  function OwnedId(prefix: string, name: string): Option<int>
  {
    if !(prefix <= name) then None
    else
      match Atoi(name[|prefix|..])
      case None => None
      case Some(id) => if InBand(id) && prefix + Decimal(id) == name then Some(id) else None
  }

  const FRONT_PREFIX := "peg"
  const UPLINK_PREFIX := "pux"
  const AWG_UPLINK_PREFIX := "paux"

  lemma {:induction false} DigitsReadDecimal(n: nat)
    ensures Decimal(n) != "" && (forall c :: c in Decimal(n) ==> '0' <= c <= '9') && Digits(Decimal(n)) == Some(n)
  {
    if n >= 10 {
      DigitsReadDecimal(n / 10);
      assert Decimal(n)[..|Decimal(n)| - 1] == Decimal(n / 10);
    }
  }

  lemma AtoiReadsDecimal(n: nat)
    ensures Atoi(Decimal(n)) == Some(n)
  {
    DigitsReadDecimal(n);
    assert Decimal(n)[0] in Decimal(n);
  }

  /** A name is owned exactly when it is the name its id prints to. */
  lemma OwnedNamesRoundTrip(prefix: string, name: string, id: int)
    ensures OwnedId(prefix, name) == Some(id) <==> InBand(id) && name == prefix + Decimal(id)
  {
    if InBand(id) && name == prefix + Decimal(id) {
      assert prefix <= name && name[|prefix|..] == Decimal(id);
      AtoiReadsDecimal(id);
    }
  }

  predicate OwnsDevice(want: string, got: string)
  {
    got != "" && ((want != "" && got == want) || OwnedId(FRONT_PREFIX, got).Some? || OwnedId(UPLINK_PREFIX, got).Some?
      || OwnedId(AWG_UPLINK_PREFIX, got).Some?)
  }

  // ----- rows, fills and plans -----

  /** What a driver puts in its table; `families` None means both. */
  datatype Fill = Fill(device: string, addr: Option<Prefix>, marked: bool, families: Option<set<Family>>)

  /** One egress row. `fill` is None where no driver is known for its type or the
      driver refused; `provisions` says a driver brings its device up or down. */
  datatype Row = Row(id: int, enable: bool, fill: Option<Fill>, provisions: bool, ingress: seq<string>,
    sources: seq<Prefix>)

  /** What stands for an id the host still holds and no row names; every driver
      is asked to take its device down. */
  function EmptyRow(id: int): Row
  {
    Row(id, false, None, true, [], [])
  }

  const NO_FILL := Fill("", None, false, None)

  function FillOf(row: Row): Fill
  {
    match row.fill case None => NO_FILL case Some(fill) => fill
  }

  /** The devices and addresses of the host, which decide whether a front is up. */
  datatype Host = Host(links: set<string>, addrs: set<(Prefix, string)>)

  predicate FrontIsUp(fill: Fill, host: Host)
  {
    && fill.device != "" && fill.device in host.links
    && match fill.addr
       case None => true
       case Some(a) => (a, fill.device) in host.addrs
  }

  predicate FillCarries(fill: Fill, f: Family)
  {
    match fill.families case None => true case Some(families) => f in families
  }

  function Hole(id: int, f: Family): Route
  {
    Route(f, Table(id), Blackhole, DefaultRoute(f), "", BLACKHOLE_METRIC)
  }

  function Front(id: int, f: Family, device: string): Route
  {
    Route(f, Table(id), Unicast, DefaultRoute(f), device, FRONT_METRIC)
  }

  function ThrowFor(id: int, src: Prefix): Route
  {
    Route(src.family, Table(id), Throw, src, "", 0)
  }

  function IngressRule(id: int, f: Family, iif: string): Rule
  {
    Rule(f, Prio(id), iif, Table(id), 0, None)
  }

  function SourceRule(id: int, src: Prefix): Rule
  {
    Rule(src.family, Prio(id), "", Table(id), 0, Some(src))
  }

  function MarkRule(id: int, f: Family): Rule
  {
    Rule(f, Prio(id), "", Table(id), Mark(id), None)
  }

  /** A source prefix as the plan uses it: valid, and masked. */
  predicate PoolOf(sources: seq<Prefix>, p: Prefix)
  {
    exists s :: s in sources && s.Valid() && s.Masked() == p
  }

  predicate WantsRule(row: Row, r: Rule)
  {
    && row.enable
    && (|| (r.iif != "" && r.iif in row.ingress && r == IngressRule(row.id, r.family, r.iif))
        || (r.src.Some? && PoolOf(row.sources, r.src.value) && r == SourceRule(row.id, r.src.value))
        || (FillOf(row).marked && r == MarkRule(row.id, r.family)))
  }

  predicate WantsHole(row: Row, r: Route)
  {
    row.enable && r == Hole(row.id, r.family)
  }

  predicate WantsThrow(row: Row, r: Route)
  {
    row.enable && PoolOf(row.sources, r.dst) && r == ThrowFor(row.id, r.dst)
  }

  predicate WantsFront(row: Row, host: Host, r: Route)
  {
    && row.enable && FrontIsUp(FillOf(row), host) && FillCarries(FillOf(row), r.family)
    && r == Front(row.id, r.family, FillOf(row).device)
  }

  // ----- ownership -----

  /** Rules at the id's priority that look up its table. */
  predicate OwnRule(id: int, r: Rule)
  {
    r.priority == Prio(id) && r.table == Table(id)
  }

  /** A rule at the id's priority that looks up another table. */
  predicate ShadowRule(id: int, r: Rule)
  {
    r.priority == Prio(id) && r.table != Table(id)
  }

  predicate OwnHole(id: int, r: Route)
  {
    r.table == Table(id) && r.kind == Blackhole && r.dst == DefaultRoute(r.family)
  }

  /** `names` holds the device names the drivers derive for this id. */
  predicate OwnFront(id: int, device: string, names: set<string>, r: Route)
  {
    r.table == Table(id) && r.kind == Unicast && r.dst == DefaultRoute(r.family)
      && (OwnsDevice(device, r.device) || r.device in names)
  }

  predicate OwnThrow(id: int, r: Route)
  {
    r.table == Table(id) && r.kind == Throw
  }

  /** A unicast route out of the id's table that is not its front. */
  predicate ShadowRoute(id: int, device: string, names: set<string>, r: Route)
  {
    r.table == Table(id) && r.kind == Unicast && !OwnFront(id, device, names, r)
  }

  // ----- the kernel's state and lookup -----

  /** The rules and routes of the kernel. */
  datatype Band = Band(rules: multiset<Rule>, routes: multiset<Route>)

  datatype Packet = Packet(family: Family, iif: string, mark: int, src: seq<bool>, dst: seq<bool>)

  predicate Matches(r: Rule, p: Packet)
  {
    && r.family == p.family && (r.iif == "" || r.iif == p.iif) && (r.mark == 0 || r.mark == p.mark)
    && match r.src case None => true case Some(src) => src.Contains(p.family, p.src)
  }

  datatype Verdict = Via(device: string) | Drop | Nothing

  /** A route of a table that matches the destination and that no longer prefix,
      and no equal prefix of lower metric, beats. */
  ghost predicate Best(b: Band, table: int, p: Packet, r: Route)
  {
    && Reaches(b, table, p, r)
    && forall other :: Reaches(b, table, p, other) ==>
      other.dst.len < r.dst.len || (other.dst.len == r.dst.len && r.metric <= other.metric)
  }

  predicate Reaches(b: Band, table: int, p: Packet, r: Route)
  {
    r in b.routes && r.table == table && r.family == p.family && r.dst.Contains(p.family, p.dst)
  }

  function VerdictOf(r: Route): Verdict
  {
    match r.kind
    case Unicast => Via(r.device)
    case Blackhole => Drop
    case Throw => Nothing
    case Other => Drop
  }

  /** What one table may answer: nothing when no route matches or a throw wins. */
  ghost predicate TableAnswers(b: Band, table: int, p: Packet, v: Verdict)
  {
    || (v == Nothing && forall r :: r in b.routes ==> !Reaches(b, table, p, r))
    || exists r :: r in b.routes && Best(b, table, p, r) && v == VerdictOf(r)
  }

  /** What the rules of one priority may answer: the verdict of a matching rule's
      table, or nothing when every matching rule's table lets the packet fall through. */
  ghost predicate PriorityAnswers(b: Band, priority: int, p: Packet, v: Verdict)
  {
    || (v != Nothing
        && exists r :: r in b.rules && r.priority == priority && Matches(r, p) && TableAnswers(b, r.table, p, v))
    || (v == Nothing && forall r :: r in b.rules && r.priority == priority && Matches(r, p) ==>
      TableAnswers(b, r.table, p, Nothing))
  }

  /** The packets a row claims: by ingress device, by mark, or by source pool. */
  predicate Selected(row: Row, p: Packet)
  {
    || (p.iif != "" && p.iif in row.ingress)
    || (FillOf(row).marked && p.mark == Mark(row.id))
    || exists s :: s in row.sources && s.Valid() && s.Contains(p.family, p.src)
  }

  predicate InPools(row: Row, p: Packet)
  {
    exists s :: s in row.sources && s.Valid() && s.Contains(p.family, p.dst)
  }

  // ----- containment -----

  predicate HasRule(rules: multiset<Rule>, id: int, f: Family)
  {
    exists r :: r in rules && OwnRule(id, r) && r.family == f
  }

  predicate HasHole(routes: multiset<Route>, id: int, f: Family)
  {
    exists r :: r in routes && OwnHole(id, r) && r.family == f
  }

  /** Every family whose rules look up the id's table has a default blackhole there. */
  predicate Contained(b: Band, id: int)
  {
    forall f: Family :: HasRule(b.rules, id, f) ==> HasHole(b.routes, id, f)
  }

  // ----- what one row should leave in the kernel -----

  function DeviceOf(row: Row): string
  {
    if row.enable then FillOf(row).device else ""
  }

  ghost predicate RulesPlanned(rules: multiset<Rule>, row: Row)
  {
    forall r :: OwnRule(row.id, r) ==> rules[r] == if WantsRule(row, r) then 1 else 0
  }

  ghost predicate HolesPlanned(routes: multiset<Route>, row: Row)
  {
    forall r :: OwnHole(row.id, r) ==> routes[r] == if WantsHole(row, r) then 1 else 0
  }

  ghost predicate ThrowsPlanned(routes: multiset<Route>, row: Row)
  {
    forall r :: OwnThrow(row.id, r) ==> routes[r] == if WantsThrow(row, r) then 1 else 0
  }

  ghost predicate FrontsPlanned(routes: multiset<Route>, row: Row, host: Host, names: set<string>)
  {
    forall r :: OwnFront(row.id, DeviceOf(row), names, r) ==> routes[r] == if WantsFront(row, host, r) then 1 else 0
  }

  /** A planned front may be missing: its device may be gone or have the family off. */
  ghost predicate FrontsWithin(routes: multiset<Route>, row: Row, host: Host, names: set<string>)
  {
    forall r :: OwnFront(row.id, DeviceOf(row), names, r) ==> routes[r] <= if WantsFront(row, host, r) then 1 else 0
  }

  ghost predicate Unshadowed(b: Band, row: Row, names: set<string>)
  {
    && (forall r :: r in b.rules ==> !ShadowRule(row.id, r))
    && (forall r :: r in b.routes ==> !ShadowRoute(row.id, DeviceOf(row), names, r))
  }

  /** What a pass that reported nothing leaves of one row. */
  ghost predicate Converged(b: Band, row: Row, host: Host, names: set<string>)
  {
    && RulesPlanned(b.rules, row) && HolesPlanned(b.routes, row) && ThrowsPlanned(b.routes, row)
    && FrontsWithin(b.routes, row, host, names) && Unshadowed(b, row, names)
  }

  /** Exactly the planned objects, neither more nor fewer. */
  ghost predicate Settled(b: Band, row: Row, host: Host, names: set<string>)
  {
    && RulesPlanned(b.rules, row) && HolesPlanned(b.routes, row) && ThrowsPlanned(b.routes, row)
    && FrontsPlanned(b.routes, row, host, names)
  }

  // ----- a converged row never leaks -----

  lemma PrefixIsNotDefault(b: Band, row: Row, host: Host, names: set<string>, p: Packet, r: Route)
    requires row.enable && Converged(b, row, host, names)
    requires !InPools(row, p) && Reaches(b, Table(row.id), p, r)
    ensures r.kind != Throw
    ensures r.kind == Unicast ==> WantsFront(row, host, r)
  {
    if r.kind == Throw {
      assert OwnThrow(row.id, r) && WantsThrow(row, r);
      var s :| s in row.sources && s.Valid() && s.Masked() == r.dst;
      MaskedContainsTheSame(s, p.family, p.dst);
    }
    if r.kind == Unicast {
      assert OwnFront(row.id, FillOf(row).device, names, r);
    }
  }

  lemma SelectingRuleExists(b: Band, row: Row, host: Host, names: set<string>, p: Packet) returns (r: Rule)
    requires row.enable && Converged(b, row, host, names) && Selected(row, p)
    ensures r in b.rules && r.priority == Prio(row.id) && r.table == Table(row.id) && Matches(r, p)
  {
    if p.iif != "" && p.iif in row.ingress {
      r := IngressRule(row.id, p.family, p.iif);
    } else if FillOf(row).marked && p.mark == Mark(row.id) {
      r := MarkRule(row.id, p.family);
    } else {
      var s :| s in row.sources && s.Valid() && s.Contains(p.family, p.src);
      MaskedContainsTheSame(s, p.family, p.src);
      r := SourceRule(row.id, s.Masked());
    }
    assert OwnRule(row.id, r) && WantsRule(row, r);
  }

  /** A converged row's table drops by default, so it always answers. */
  lemma TableAlwaysAnswers(b: Band, row: Row, host: Host, names: set<string>, p: Packet, v: Verdict)
    requires row.enable && Converged(b, row, host, names) && !InPools(row, p)
    requires TableAnswers(b, Table(row.id), p, v)
    ensures v == Drop || (v == Via(FillOf(row).device) && FrontIsUp(FillOf(row), host)
      && FillCarries(FillOf(row), p.family))
  {
    var hole := Hole(row.id, p.family);
    assert OwnHole(row.id, hole) && WantsHole(row, hole);
    assert Reaches(b, Table(row.id), p, hole);
    if r :| r in b.routes && Best(b, Table(row.id), p, r) && v == VerdictOf(r) {
      PrefixIsNotDefault(b, row, host, names, p, r);
    }
  }

  /** Every packet a converged row selects, with a destination outside its source
      pools, is answered at the row's own priority by the planned front or a drop. */
  lemma ConvergedNeverLeaks(b: Band, row: Row, host: Host, names: set<string>, p: Packet, v: Verdict)
    requires row.enable && Converged(b, row, host, names)
    requires Selected(row, p) && !InPools(row, p)
    requires PriorityAnswers(b, Prio(row.id), p, v)
    ensures v == Drop || (v == Via(FillOf(row).device) && FrontIsUp(FillOf(row), host)
      && FillCarries(FillOf(row), p.family))
  {
    var selecting := SelectingRuleExists(b, row, host, names, p);
    if v == Nothing {
      TableAlwaysAnswers(b, row, host, names, p, v);
    } else {
      var r :| r in b.rules && r.priority == Prio(row.id) && Matches(r, p) && TableAnswers(b, r.table, p, v);
      assert !ShadowRule(row.id, r);
      TableAlwaysAnswers(b, row, host, names, p, v);
    }
  }

  /** With its fronts installed and nothing else in its table, the answer is the front. */
  lemma InstalledFrontAnswers(b: Band, row: Row, host: Host, names: set<string>, p: Packet, v: Verdict)
    requires row.enable && Converged(b, row, host, names) && Settled(b, row, host, names)
    requires forall r :: r in b.routes && r.table == Table(row.id) ==>
      r.kind != Other && (r.kind == Blackhole ==> OwnHole(row.id, r))
    requires Selected(row, p) && !InPools(row, p) && FrontIsUp(FillOf(row), host) && FillCarries(FillOf(row), p.family)
    requires PriorityAnswers(b, Prio(row.id), p, v)
    ensures v == Via(FillOf(row).device)
  {
    ConvergedNeverLeaks(b, row, host, names, p, v);
    var r :| r in b.rules && r.priority == Prio(row.id) && Matches(r, p) && TableAnswers(b, r.table, p, v);
    assert !ShadowRule(row.id, r);
    var front := Front(row.id, p.family, FillOf(row).device);
    assert WantsFront(row, host, front) && OwnFront(row.id, DeviceOf(row), names, front);
    assert Reaches(b, Table(row.id), p, front);
    var best :| best in b.routes && Best(b, Table(row.id), p, best) && v == VerdictOf(best);
    PrefixIsNotDefault(b, row, host, names, p, best);
    if best.kind == Blackhole {
      assert OwnHole(row.id, best) && WantsHole(row, best);
    }
  }

  // ----- a lookup always has an answer -----

  predicate Beats(r: Route, other: Route)
  {
    other.dst.len < r.dst.len || (other.dst.len == r.dst.len && r.metric <= other.metric)
  }

  /** Among finitely many reachable routes one is unbeaten. */
  lemma {:induction false} BestAmong(b: Band, table: int, p: Packet, candidates: set<Route>) returns (best: Route)
    requires candidates != {} && forall r :: r in candidates ==> Reaches(b, table, p, r)
    ensures best in candidates && forall r :: r in candidates ==> Beats(best, r)
    decreases |candidates|
  {
    var r :| r in candidates;
    if candidates == {r} {
      best := r;
    } else {
      assert candidates - {r} != {};
      var rest := BestAmong(b, table, p, candidates - {r});
      best := if Beats(r, rest) then r else rest;
      forall other | other in candidates ensures Beats(best, other) {
        assert other == r || other in candidates - {r};
      }
    }
  }

  lemma TableHasAnAnswer(b: Band, table: int, p: Packet) returns (v: Verdict)
    ensures TableAnswers(b, table, p, v)
  {
    var candidates := set r | r in b.routes && Reaches(b, table, p, r);
    if candidates == {} {
      v := Nothing;
      assert forall r :: r in b.routes && Reaches(b, table, p, r) ==> r in candidates;
    } else {
      var best := BestAmong(b, table, p, candidates);
      v := VerdictOf(best);
      forall other | Reaches(b, table, p, other) ensures Beats(best, other) {
        assert other in candidates;
      }
      assert Best(b, table, p, best);
    }
  }

  /** Every lookup at a priority has an answer, so what is proved of every answer is not vacuous. */
  lemma PriorityHasAnAnswer(b: Band, priority: int, p: Packet) returns (v: Verdict)
    ensures PriorityAnswers(b, priority, p, v)
  {
    v := Nothing;
    if r :| r in b.rules && r.priority == priority && Matches(r, p) && !TableAnswers(b, r.table, p, Nothing) {
      v := TableHasAnAnswer(b, r.table, p);
    }
  }
}
