/** What the counter bills for one key, against what the key really moved. */
module CounterBilling {
  import opened Results
  import opened Counters

  /** One key of a source and the counter's part for it. `moved` is all the key ever
      moved, `zeroAt` what it had moved when its counter last went to zero, `readAt`
      what it had moved when it was last counted, `primedAt` when counting began.
      `token` is the source's incarnation, and `noted` whether the panel noted a
      restart the key was not counted after yet. */
  datatype World = World(baseline: Baseline, primed: bool, epoch: string, billed: int,
                         moved: nat, zeroAt: nat, readAt: nat, primedAt: nat, token: string, noted: bool)

  /** An observation comes with the token or, where `spoken` is false, without it. */
  datatype Event =
    | Move(bytes: nat)
    | Reset
    | Restart(incarnation: string, noting: bool)
    | Observe(reading: Option<int>, empty: bool, spoken: bool)
    | Forget

  function Reported(w: World, spoken: bool): string
  {
    if spoken then w.token else ""
  }

  predicate SeesRestart(w: World, spoken: bool)
  {
    Restarted(Checkpoint(w.epoch, w.primed, map[], map[]), Reported(w, spoken))
  }

  predicate Counts(reading: Option<int>)
  {
    reading.Some? && reading.value >= 0
  }

  function Next(w: World, e: Event): World
  {
    match e
    case Move(n) => w.(moved := w.moved + n)
    case Reset => w.(zeroAt := w.moved)
    case Restart(incarnation, noting) =>
      var v := w.(zeroAt := w.moved, token := incarnation);
      if noting then v.(baseline := NO_BASELINE, noted := true) else v
    case Forget => w.(baseline := NO_BASELINE)
    case Observe(reading, empty, spoken) =>
      var (baseline, delta) := ObserveKey(w.baseline, w.primed, SeesRestart(w, spoken), empty, reading);
      w.(baseline := baseline, primed := true, billed := w.billed + delta,
         epoch := if Reported(w, spoken) != "" then Reported(w, spoken) else w.epoch,
         readAt := if !w.primed || Counts(reading) then w.moved else w.readAt,
         primedAt := if w.primed then w.primedAt else w.moved,
         noted := w.noted && w.primed && !Counts(reading))
  }

  /** The world's key is the counter's: an observation of the whole counter moves
      the key's part, and bills it, as the world says. */
  lemma KeyFollowsCounter(w: World, c: Checkpoint, spoken: bool, readings: map<string, int>, next: Checkpoint,
      deltas: map<string, int>, key: string)
    requires w.baseline == KeyAt(c, key) && w.primed == c.primed && w.epoch == c.epoch
    requires Observes(c, Reported(w, spoken), readings, next, deltas)
    ensures var v := Next(w, Observe(At(readings, key), readings == map[], spoken));
      && v.baseline == KeyAt(next, key) && v.primed == next.primed && v.epoch == next.epoch
      && v.billed == w.billed + if key in deltas then deltas[key] else 0
  {
    assert KeyAt(next, key)
        == ObserveKey(KeyAt(c, key), c.primed, Restarted(c, Reported(w, spoken)), readings == map[],
          At(readings, key)).0;
  }

  // ----- runs -----

  function After(w: World, events: seq<Event>): World
  {
    if events == [] then w else Next(After(w, events[..|events| - 1]), events[|events| - 1])
  }

  /** A counter shows what its key moved since it last went to zero. */
  predicate Truthful(w: World, e: Event)
  {
    e.Observe? ==> (e.reading.Some? ==> !e.empty) && (Counts(e.reading) ==> e.reading.value == w.moved - w.zeroAt)
  }

  predicate TruthfulRun(w: World, events: seq<Event>)
  {
    events == []
    || (TruthfulRun(w, events[..|events| - 1]) && Truthful(After(w, events[..|events| - 1]), events[|events| - 1]))
  }

  predicate Start(w: World)
  {
    && w.baseline == NO_BASELINE && !w.primed && w.epoch == "" && w.billed == 0 && !w.noted
    && w.zeroAt <= w.moved && w.readAt <= w.moved
  }

  /** A baseline is what the key showed when it was last counted, unless it went to zero since. */
  predicate Inv(w: World)
  {
    && w.zeroAt <= w.moved && w.readAt <= w.moved
    && (w.baseline.last.Some? ==>
          w.primed && w.baseline.last.value >= 0
            && (w.baseline.last.value == w.readAt - w.zeroAt || w.zeroAt >= w.readAt))
    && if w.primed then w.primedAt <= w.readAt else w.billed == 0 && w.epoch == ""
  }

  lemma EventKeepsInv(w: World, e: Event)
    requires Inv(w) && Truthful(w, e)
    ensures Inv(Next(w, e))
  {
  }

  lemma {:induction false} RunKeepsInv(w: World, events: seq<Event>)
    requires Start(w) && TruthfulRun(w, events)
    ensures Inv(After(w, events))
  {
    if events != [] {
      RunKeepsInv(w, events[..|events| - 1]);
      EventKeepsInv(After(w, events[..|events| - 1]), events[|events| - 1]);
    }
  }

  // ----- exactly when a key is billed too much -----

  /** A reading that counts finds a baseline and keeps to it, or the key's counter
      went to zero since it was last counted. */
  predicate Fair(w: World, e: Event)
  {
    e.Observe? && w.primed && Counts(e.reading) ==>
      (w.baseline.last.Some? && !SeesRestart(w, e.spoken)) || w.zeroAt >= w.readAt
  }

  predicate FairRun(w: World, events: seq<Event>)
  {
    events == [] || (FairRun(w, events[..|events| - 1]) && Fair(After(w, events[..|events| - 1]), events[|events| - 1]))
  }

  /** An event bills no more than the key moved from its last counted reading to this one. */
  predicate Within(w: World, e: Event)
  {
    Next(w, e).billed - w.billed <= if w.primed then Next(w, e).readAt - w.readAt else 0
  }

  predicate WithinRun(w: World, events: seq<Event>)
  {
    events == [] || (WithinRun(w, events[..|events| - 1])
      && Within(After(w, events[..|events| - 1]), events[|events| - 1]))
  }

  lemma FairIsWithin(w: World, e: Event)
    requires Inv(w) && Truthful(w, e)
    ensures Fair(w, e) <==> Within(w, e)
  {
  }

  /** In every run of a truthful source, no reading is billed too much if and only
      if every reading is fair. */
  lemma {:induction false} OverbillsExactlyWhenUnfair(w: World, events: seq<Event>)
    requires Start(w) && TruthfulRun(w, events)
    ensures FairRun(w, events) <==> WithinRun(w, events)
  {
    if events != [] {
      var init, e := events[..|events| - 1], events[|events| - 1];
      OverbillsExactlyWhenUnfair(w, init);
      RunKeepsInv(w, init);
      FairIsWithin(After(w, init), e);
    }
  }

  /** Over every fair run no key is billed more than it moved since counting began. */
  lemma {:induction false} FairRunNeverOverbills(w: World, events: seq<Event>)
    requires Start(w) && TruthfulRun(w, events) && FairRun(w, events)
    ensures var v := After(w, events); v.billed <= if v.primed then v.readAt - v.primedAt else 0
  {
    if events != [] {
      var init, e := events[..|events| - 1], events[|events| - 1];
      FairRunNeverOverbills(w, init);
      RunKeepsInv(w, init);
      FairIsWithin(After(w, init), e);
    }
  }

  // ----- sources that are always fair -----

  /** A source that reports its token always or never, changes it when it restarts,
      and whose unknown keys come from zero. */
  predicate Honest(w: World, e: Event, reports: bool)
  {
    && Truthful(w, e)
    && match e
       case Restart(incarnation, _) => reports ==> incarnation != "" && incarnation != w.token
       case Observe(reading, _, spoken) =>
         && spoken == reports
         && (Counts(reading) && w.primed && w.baseline.last.None? && !w.noted && !SeesRestart(w, spoken) ==>
           w.zeroAt >= w.readAt)
       case _ => true
  }

  predicate HonestRun(w: World, events: seq<Event>, reports: bool)
  {
    events == []
    || (HonestRun(w, events[..|events| - 1], reports)
      && Honest(After(w, events[..|events| - 1]), events[|events| - 1], reports))
  }

  /** The counter has seen every token there was, or the key went to zero since. */
  predicate TokenOk(w: World, reports: bool)
  {
    && (reports ==> w.token != "") && (w.epoch != "" ==> reports) && (w.primed && reports ==> w.epoch != "")
    && (w.epoch != "" && w.epoch != w.token ==> w.zeroAt >= w.readAt) && (w.noted && w.primed ==> w.zeroAt >= w.readAt)
  }

  lemma HonestIsFair(w: World, e: Event, reports: bool)
    requires Inv(w) && TokenOk(w, reports) && Honest(w, e, reports)
    ensures Fair(w, e) && TokenOk(Next(w, e), reports)
  {
  }

  lemma {:induction false} HonestRunIsFair(w: World, events: seq<Event>, reports: bool)
    requires Start(w) && (reports ==> w.token != "") && HonestRun(w, events, reports)
    ensures TruthfulRun(w, events) && FairRun(w, events) && TokenOk(After(w, events), reports)
  {
    if events != [] {
      var init, e := events[..|events| - 1], events[|events| - 1];
      HonestRunIsFair(w, init, reports);
      RunKeepsInv(w, init);
      HonestIsFair(After(w, init), e, reports);
    }
  }

  /** So it is never billed more than it moved since counting began. */
  lemma NeverOverbills(w: World, events: seq<Event>, reports: bool)
    requires Start(w) && (reports ==> w.token != "") && HonestRun(w, events, reports)
    ensures var v := After(w, events); v.billed <= if v.primed then v.moved - v.primedAt else 0
  {
    HonestRunIsFair(w, events, reports);
    RunKeepsInv(w, events);
    FairRunNeverOverbills(w, events);
  }

  // ----- exact billing -----

  /** How many readings running the key was missing from. */
  function Misses(start: nat, events: seq<Event>): nat
  {
    if events == [] then start
    else MissesNext(Misses(start, events[..|events| - 1]), events[|events| - 1])
  }

  /** Nothing resets, nothing is forgotten, and the key never misses ten readings running. */
  predicate Steady(start: nat, events: seq<Event>)
  {
    events == []
    || (&& Steady(start, events[..|events| - 1]) && Misses(start, events) < BASELINE_GRACE
        && (events[|events| - 1].Move? || events[|events| - 1].Observe?))
  }

  /** A key that is counted, and no restart the counter has not seen. */
  predicate Settled(w: World, misses: nat)
  {
    && w.primed && w.zeroAt <= w.readAt <= w.moved && w.baseline.last == Some(w.readAt - w.zeroAt)
    && (w.epoch == "" || w.epoch == w.token)
    && w.baseline.absent == (if misses == 0 then None else Some(misses)) && misses < BASELINE_GRACE
  }

  function MissesNext(misses: nat, e: Event): nat
  {
    if !e.Observe? || e.empty then misses else if e.reading.Some? then 0 else misses + 1
  }

  lemma SteadyStep(w: World, misses: nat, e: Event)
    requires Settled(w, misses) && Truthful(w, e) && (e.Move? || e.Observe?) && MissesNext(misses, e) < BASELINE_GRACE
    ensures var v := Next(w, e);
      && Settled(v, MissesNext(misses, e)) && v.zeroAt == w.zeroAt && v.primedAt == w.primedAt
      && v.billed - w.billed == v.readAt - w.readAt
  {
  }

  /** While nothing resets, what is billed is exactly the last reading minus the
      first, however many single readings the key missed. */
  lemma {:induction false} SteadyBillingIsExact(w: World, misses: nat, events: seq<Event>)
    requires Settled(w, misses) && TruthfulRun(w, events) && Steady(misses, events)
    ensures var v := After(w, events);
      && Settled(v, Misses(misses, events)) && v.zeroAt == w.zeroAt && v.primedAt == w.primedAt
      && v.billed - w.billed == v.baseline.last.value - w.baseline.last.value == v.readAt - w.readAt
  {
    if events != [] {
      var init, e := events[..|events| - 1], events[|events| - 1];
      SteadyBillingIsExact(w, misses, init);
      SteadyStep(After(w, init), Misses(misses, init), e);
    }
  }

  // ----- the two unfair families -----

  /** The source restarts, the key moves some bytes, and is read first without the
      new token and then with it. */
  function SilentRestart(incarnation: string, n: nat): seq<Event>
  {
    [Restart(incarnation, false), Move(n), Observe(Some(n), false, false), Observe(Some(n), false, true)]
  }

  lemma AfterOneMore(w: World, events: seq<Event>, e: Event)
    ensures After(w, events + [e]) == Next(After(w, events), e)
    ensures TruthfulRun(w, events + [e]) <==> TruthfulRun(w, events) && Truthful(After(w, events), e)
  {
    assert (events + [e])[..|events|] == events;
  }

  lemma AfterSilentRestart(w: World, incarnation: string, n: nat)
    ensures var u := Next(Next(w, Restart(incarnation, false)), Move(n));
      After(w, SilentRestart(incarnation, n)) ==
        Next(Next(u, Observe(Some(n), false, false)), Observe(Some(n), false, true))
    ensures TruthfulRun(w, SilentRestart(incarnation, n))
  {
    var a, b := Restart(incarnation, false), Move(n);
    var c, d := Observe(Some(n), false, false), Observe(Some(n), false, true);
    AfterOneMore(w, [], a);
    AfterOneMore(w, [a], b);
    AfterOneMore(w, [a, b], c);
    AfterOneMore(w, [a, b, c], d);
    assert [] + [a] == [a] && [a] + [b] == [a, b] && [a, b] + [c] == [a, b, c]
      && [a, b, c] + [d] == SilentRestart(incarnation, n);
  }

  /** A token that is sometimes silent bills the bytes after a restart again. The key
      is billed too much exactly when the silent reading bills more than the key had
      moved unread when the source restarted. */
  lemma SilentTokenBillsTwice(w: World, incarnation: string, n: nat)
    requires Settled(w, 0) && w.epoch == w.token && w.token != "" && incarnation != "" && incarnation != w.token
    ensures var last := w.baseline.last.value; var v := After(w, SilentRestart(incarnation, n));
      && TruthfulRun(w, SilentRestart(incarnation, n))
      && v.billed - w.billed == n + (if n < last then n else n - last)
      && (v.billed - w.billed > v.moved - w.readAt <==> (if n < last then n else n - last) > w.moved - w.readAt)
  {
    AfterSilentRestart(w, incarnation, n);
  }

  /** The key stays away from a number of readings. */
  function Absent(n: nat): seq<Event>
  {
    if n == 0 then [] else Absent(n - 1) + [Observe(None, false, false)]
  }

  lemma {:induction false} AbsentIsTruthful(w: World, n: nat)
    ensures TruthfulRun(w, Absent(n))
  {
    if n > 0 {
      AbsentIsTruthful(w, n - 1);
      AfterOneMore(w, Absent(n - 1), Observe(None, false, false));
    }
  }

  lemma OneMiss(w: World, v: World, n: nat)
    requires Settled(w, 0) && n > 0
    requires v == w.(baseline := AfterMisses(w.baseline, n - 1))
    ensures Next(v, Observe(None, false, false)) == w.(baseline := AfterMisses(w.baseline, n))
  {
  }

  function AfterMisses(x: Baseline, n: nat): Baseline
  {
    if n == 0 then x else if n < BASELINE_GRACE then x.(absent := Some(n)) else NO_BASELINE
  }

  lemma {:induction false} AfterAbsent(w: World, n: nat)
    requires Settled(w, 0)
    ensures After(w, Absent(n)) == w.(baseline := AfterMisses(w.baseline, n))
  {
    if n > 0 {
      AfterAbsent(w, n - 1);
      AfterOneMore(w, Absent(n - 1), Observe(None, false, false));
      OneMiss(w, After(w, Absent(n - 1)), n);
    }
  }

  /** A key that misses any number of readings and returns is billed what it moved
      since it was last counted when that number is below ten, and all its counter
      shows otherwise. It is billed too much exactly when it missed ten or more and
      had shown anything before. */
  lemma MissingTenBillsAgain(w: World, n: nat)
    requires Settled(w, 0)
    ensures var back := Absent(n) + [Observe(Some(w.moved - w.zeroAt), false, false)]; var v := After(w, back);
      && TruthfulRun(w, back)
      && v.billed - w.billed == (if n < BASELINE_GRACE then w.moved - w.readAt else w.moved - w.zeroAt)
      && (v.billed - w.billed > w.moved - w.readAt <==> n >= BASELINE_GRACE && w.readAt > w.zeroAt)
  {
    AfterAbsent(w, n);
    AbsentIsTruthful(w, n);
    AfterOneMore(w, Absent(n), Observe(Some(w.moved - w.zeroAt), false, false));
  }

  /** A key just counted for the first time, at a hundred bytes. */
  predicate JustPrimed(w: World)
  {
    && w.primed && w.baseline == Baseline(Some(100), None) && w.zeroAt == 0 && w.moved == w.readAt == w.primedAt == 100
    && w.billed == 0 && w.epoch == w.token == "a"
  }

  /** Both families start from worlds there are, such as one reading after the start. */
  lemma PrimedIsReached() returns (w: World, e: Event)
    ensures Start(w) && Truthful(w, e) && JustPrimed(Next(w, e)) && Settled(Next(w, e), 0)
  {
    w := World(NO_BASELINE, false, "", 0, 100, 0, 0, 0, "a", false);
    e := Observe(Some(100), false, true);
  }

  /** There ten bytes moved after a restart are billed as twenty. */
  lemma TenBytesBilledAsTwenty(w: World, incarnation: string, n: nat)
    requires JustPrimed(w) && incarnation == "b" && n == 10
    ensures var v := After(w, SilentRestart(incarnation, n)); v.billed == 20 && v.moved - v.primedAt == 10
  {
    SilentTokenBillsTwice(w, incarnation, n);
    AfterSilentRestart(w, incarnation, n);
  }

  /** And a hundred bytes are billed, though none moved, after ten misses or more. */
  lemma NothingBilledAsHundred(w: World, n: nat)
    requires JustPrimed(w) && n >= BASELINE_GRACE
    ensures var v := After(w, Absent(n) + [Observe(Some(w.moved - w.zeroAt), false, false)]);
      v.billed == 100 && v.moved == v.primedAt
  {
    MissingTenBillsAgain(w, n);
    AfterAbsent(w, n);
    AfterOneMore(w, Absent(n), Observe(Some(w.moved - w.zeroAt), false, false));
  }
}
