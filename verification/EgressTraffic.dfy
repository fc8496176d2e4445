/** What a row does to packets, said of the row, the host's links and addresses and
    the packet alone: whose packets it takes, where they may leave, and that
    everyone else's fall through. */
module EgressTraffic {
  import opened Results
  import opened Egress

  /** The packets a row is for: from its ingress devices, under its mark, or out of its pools. */
  predicate TakesPacket(row: Row, p: Packet)
  {
    || (p.iif != "" && p.iif in row.ingress)
    || (row.fill.Some? && row.fill.value.marked && p.mark == 0x0e00_0000 + row.id)
    || exists s :: s in row.sources && Covers(s, p.family, p.src)
  }

  /** An address within a prefix: its family, and as many leading bits as the prefix has. */
  predicate Covers(s: Prefix, f: Family, address: seq<bool>)
  {
    && s.family == f && |s.addr| == (if f == V4 then 32 else 128) && 0 <= s.len <= |s.addr| && s.len <= |address|
    && s.addr[..s.len] == address[..s.len]
  }

  /** A packet back into one of the row's own source pools. */
  predicate IntoPools(row: Row, p: Packet)
  {
    exists s :: s in row.sources && Covers(s, p.family, p.dst)
  }

  /** A device a family may leave by: the one the driver names, there on the host, with
      the address it has to carry if it names one, and not ruled out for the family. */
  predicate LeavesBy(row: Row, host: Host, f: Family, device: string)
  {
    && row.fill.Some? && row.fill.value.device == device && device != "" && device in host.links
    && (row.fill.value.addr.Some? ==> (row.fill.value.addr.value, device) in host.addrs)
    && (row.fill.value.families.Some? ==> f in row.fill.value.families.value)
  }

  /** Nothing in the row's table but default blackholes, unicast routes and throws. */
  predicate NoForeign(b: Band, row: Row)
  {
    forall r :: r in b.routes && r.table == 30000 + row.id && r.kind != Unicast && r.kind != Throw ==>
      r.kind == Blackhole && r.dst == DefaultRoute(r.family)
  }

  /** The row's packets leave by its device or not at all, those into its pools do not
      leave here, and nobody else's packets are touched. */
  predicate MayAnswer(row: Row, host: Host, p: Packet, v: Verdict)
  {
    if !row.enable || !TakesPacket(row, p) then v == Nothing
    else if IntoPools(row, p) then !v.Via?
    else v == Drop || (v.Via? && LeavesBy(row, host, p.family, v.device))
  }

  /** The one answer: the device where there is one to leave by, else a drop. */
  predicate MustAnswer(row: Row, host: Host, p: Packet, v: Verdict)
  {
    if !row.enable || !TakesPacket(row, p) || IntoPools(row, p) then v == Nothing
    else if row.fill.Some? && LeavesBy(row, host, p.family, row.fill.value.device)
      then v == Via(row.fill.value.device)
    else v == Drop
  }

  ghost predicate Isolated(b: Band, row: Row, host: Host)
  {
    forall p, v :: PriorityAnswers(b, 31000 + row.id, p, v) ==> MayAnswer(row, host, p, v)
  }

  ghost predicate Routed(b: Band, row: Row, host: Host)
  {
    forall p, v :: PriorityAnswers(b, 31000 + row.id, p, v) ==> MustAnswer(row, host, p, v)
  }

  lemma TakesIsSelected(row: Row, p: Packet)
    ensures TakesPacket(row, p) <==> Selected(row, p)
    ensures IntoPools(row, p) <==> InPools(row, p)
  {
    assert forall s: Prefix :: s.Valid() && s.Contains(p.family, p.src) <==> Covers(s, p.family, p.src);
    assert forall s: Prefix :: s.Valid() && s.Contains(p.family, p.dst) <==> Covers(s, p.family, p.dst);
  }

  lemma LeavesIsUp(row: Row, host: Host, f: Family, device: string)
    ensures LeavesBy(row, host, f, device) <==>
      device == FillOf(row).device && FrontIsUp(FillOf(row), host) && FillCarries(FillOf(row), f)
  {
  }

  /** A rule of the row's own that matches a packet shows that the row is for it. */
  lemma MatchingIsSelected(row: Row, r: Rule, p: Packet)
    requires InBand(row.id) && WantsRule(row, r) && Matches(r, p)
    ensures row.enable && Selected(row, p)
  {
    if r.src.Some? && PoolOf(row.sources, r.src.value) {
      var s :| s in row.sources && s.Valid() && s.Masked() == r.src.value;
      MaskedContainsTheSame(s, p.family, p.src);
    }
  }

  lemma UntakenFallsThrough(b: Band, row: Row, host: Host, names: set<string>, p: Packet, v: Verdict)
    requires InBand(row.id) && Converged(b, row, host, names) && !(row.enable && Selected(row, p))
    requires PriorityAnswers(b, Prio(row.id), p, v)
    ensures v == Nothing
  {
    if v != Nothing {
      var r :| r in b.rules && r.priority == Prio(row.id) && Matches(r, p) && TableAnswers(b, r.table, p, v);
      assert !ShadowRule(row.id, r);
      assert OwnRule(row.id, r);
      MatchingIsSelected(row, r, p);
    }
  }

  /** The unicast routes and, without foreign ones, the blackholes of a converged table are defaults of a set metric. */
  lemma OthersAreDefault(b: Band, row: Row, host: Host, names: set<string>, r: Route)
    requires row.enable && Converged(b, row, host, names) && r in b.routes && r.table == Table(row.id)
    ensures r.kind == Unicast ==> r.dst.len == 0 && r.metric == FRONT_METRIC
    ensures NoForeign(b, row) && r.kind != Unicast && r.kind != Throw ==> r.dst.len == 0 && r.metric == BLACKHOLE_METRIC
  {
    if r.kind == Unicast {
      assert !ShadowRoute(row.id, DeviceOf(row), names, r);
    } else if r.kind != Throw && NoForeign(b, row) {
      assert OwnHole(row.id, r);
    }
  }

  /** A throw for the pool beats every default route of the table. */
  lemma PoolsDoNotLeave(b: Band, row: Row, host: Host, names: set<string>, p: Packet, v: Verdict)
    requires row.enable && Converged(b, row, host, names) && InPools(row, p)
    requires TableAnswers(b, Table(row.id), p, v)
    ensures !v.Via?
    ensures NoForeign(b, row) ==> v == Nothing
  {
    var s :| s in row.sources && s.Valid() && s.Contains(p.family, p.dst);
    MaskedContainsTheSame(s, p.family, p.dst);
    var thrown := ThrowFor(row.id, s.Masked());
    assert OwnThrow(row.id, thrown) && WantsThrow(row, thrown);
    assert Reaches(b, Table(row.id), p, thrown);
    if r :| r in b.routes && Best(b, Table(row.id), p, r) && v == VerdictOf(r) {
      OthersAreDefault(b, row, host, names, r);
    }
  }

  /** Whatever a selected packet is answered at the row's priority, the row's own table says. */
  lemma OwnTableDecides(b: Band, row: Row, host: Host, names: set<string>, p: Packet, v: Verdict)
    requires row.enable && Converged(b, row, host, names) && Selected(row, p) && PriorityAnswers(b, Prio(row.id), p, v)
    ensures TableAnswers(b, Table(row.id), p, v)
  {
    var selecting := SelectingRuleExists(b, row, host, names, p);
    if v != Nothing {
      var r :| r in b.rules && r.priority == Prio(row.id) && Matches(r, p) && TableAnswers(b, r.table, p, v);
      assert !ShadowRule(row.id, r);
    }
  }

  /** A converged row takes its own packets, lets them out by its device alone, and
      leaves everyone else's to the rules below. */
  lemma ConvergedIsIsolated(b: Band, row: Row, host: Host, names: set<string>)
    requires InBand(row.id) && Converged(b, row, host, names)
    ensures Isolated(b, row, host)
  {
    forall p, v | PriorityAnswers(b, 31000 + row.id, p, v) ensures MayAnswer(row, host, p, v) {
      TakesIsSelected(row, p);
      if !(row.enable && Selected(row, p)) {
        UntakenFallsThrough(b, row, host, names, p, v);
      } else if InPools(row, p) {
        OwnTableDecides(b, row, host, names, p, v);
        PoolsDoNotLeave(b, row, host, names, p, v);
      } else {
        ConvergedNeverLeaks(b, row, host, names, p, v);
        LeavesIsUp(row, host, p.family, FillOf(row).device);
      }
    }
  }

  /** A settled row without foreign routes answers exactly as it has to. */
  lemma SettledIsRouted(b: Band, row: Row, host: Host, names: set<string>)
    requires InBand(row.id) && Converged(b, row, host, names) && Settled(b, row, host, names) && NoForeign(b, row)
    ensures Routed(b, row, host)
  {
    forall p, v | PriorityAnswers(b, 31000 + row.id, p, v) ensures MustAnswer(row, host, p, v) {
      TakesIsSelected(row, p);
      LeavesIsUp(row, host, p.family, FillOf(row).device);
      if !(row.enable && Selected(row, p)) {
        UntakenFallsThrough(b, row, host, names, p, v);
      } else if InPools(row, p) {
        OwnTableDecides(b, row, host, names, p, v);
        PoolsDoNotLeave(b, row, host, names, p, v);
      } else if FrontIsUp(FillOf(row), host) && FillCarries(FillOf(row), p.family) {
        InstalledFrontAnswers(b, row, host, names, p, v);
      } else {
        ConvergedNeverLeaks(b, row, host, names, p, v);
      }
    }
  }

  /** A device name of the panel's own: a front it carved or an uplink it dials. */
  predicate OwnName(device: string, id: int)
  {
    1 <= id <= 999 && (device == "peg" + Decimal(id) || device == "pux" + Decimal(id) || device == "paux" + Decimal(id))
  }

  /** A settled row has no default route left by a device of the panel's own, or one a
      driver derives for it, but the one it is to leave by. */
  lemma StaleFrontsAreGone(b: Band, row: Row, host: Host, names: set<string>, r: Route, id: int)
    requires Settled(b, row, host, names)
    requires r in b.routes && r.table == 30000 + row.id && r.kind == Unicast && r.dst == DefaultRoute(r.family)
    requires OwnName(r.device, id) || r.device in names
    ensures row.enable && LeavesBy(row, host, r.family, r.device) && r.metric == 100 && b.routes[r] == 1
  {
    if OwnName(r.device, id) {
      OwnedNamesRoundTrip(FRONT_PREFIX, r.device, id);
      OwnedNamesRoundTrip(UPLINK_PREFIX, r.device, id);
      OwnedNamesRoundTrip(AWG_UPLINK_PREFIX, r.device, id);
    }
    assert OwnFront(row.id, DeviceOf(row), names, r);
    LeavesIsUp(row, host, r.family, r.device);
  }
}
