/** The counter-to-delta engine: successive cumulative readings in, bytes to bill
    out, with baselines that survive restarts of the source and of the panel. */
module Counters {
  import opened Results

  const BASELINE_GRACE := 10

  /** All a counter holds, which is also what it writes down between processes. */
  datatype Checkpoint = Checkpoint(epoch: string, primed: bool, last: map<string, int>, absent: map<string, int>)

  const FRESH := Checkpoint("", false, map[], map[])

  /** One key's part: its baseline and how many readings running it was missing. */
  datatype Baseline = Baseline(last: Option<int>, absent: Option<int>)

  const NO_BASELINE := Baseline(None, None)

  function At(m: map<string, int>, key: string): Option<int>
  {
    if key in m then Some(m[key]) else None
  }

  function KeyAt(c: Checkpoint, key: string): Baseline
  {
    Baseline(At(c.last, key), At(c.absent, key))
  }

  predicate Restarted(c: Checkpoint, epoch: string)
  {
    c.primed && epoch != "" && c.epoch != "" && epoch != c.epoch
  }

  /** What a reading does to a baseline; a negative reading is ignored. */
  function Read(x: Baseline, reading: Option<int>): Baseline
  {
    if reading.Some? && reading.value >= 0 then x.(last := reading) else x
  }

  /** What a reading bills: an unseen or shrunken counter counts in full. */
  function Delta(x: Baseline, reading: Option<int>): int
  {
    if reading.None? || reading.value < 0 then 0
    else if x.last.None? || reading.value < x.last.value then reading.value
    else reading.value - x.last.value
  }

  /** A key missing from a reading that has others grows old, and is dropped in the end. */
  function Expire(x: Baseline, reading: Option<int>): Baseline
  {
    if x.last.None? then x
    else if reading.Some? then x.(absent := None)
    else
      var missed := (if x.absent.Some? then x.absent.value else 0) + 1;
      if missed >= BASELINE_GRACE then NO_BASELINE else x.(absent := Some(missed))
  }

  /** One key through one observation: its new baseline and what is billed. */
  function ObserveKey(x: Baseline, primed: bool, restarted: bool, empty: bool, reading: Option<int>): (Baseline, int)
  {
    var y := if restarted then NO_BASELINE else x;
    if !primed then (Read(y, reading), 0)
    else if empty then (Read(y, reading), Delta(y, reading))
    else (Expire(Read(y, reading), reading), Delta(y, reading))
  }

  /** A whole observation, key by key. Only growth is billed. */
  ghost predicate Observes(c: Checkpoint, epoch: string, readings: map<string, int>, next: Checkpoint,
      deltas: map<string, int>)
  {
    && next.primed && next.epoch == (if epoch != "" then epoch else c.epoch)
    && (forall key ::
          KeyAt(next, key)
          == ObserveKey(KeyAt(c, key), c.primed, Restarted(c, epoch), readings == map[], At(readings, key)).0)
    && (forall key ::
          ObserveKey(KeyAt(c, key), c.primed, Restarted(c, epoch), readings == map[], At(readings, key)).1
          == if key in deltas then deltas[key] else 0)
    && forall key :: key in deltas ==> deltas[key] > 0
  }

  /** A key has a baseline to start from unless the tokens show a restart. */
  predicate Based(c: Checkpoint, epoch: string, key: string)
  {
    key in c.last && !(c.primed && epoch != "" && c.epoch != "" && epoch != c.epoch)
  }

  /** What is billed: nothing by the first observation, then of every reading that is not
      negative its growth over the baseline, or all of it without one or below it. */
  predicate BilledFor(c: Checkpoint, epoch: string, readings: map<string, int>, key: string, bytes: int)
  {
    if !c.primed || key !in readings || readings[key] < 0 then bytes == 0
    else if Based(c, epoch, key) && c.last[key] <= readings[key] then bytes == readings[key] - c.last[key]
    else bytes == readings[key]
  }

  ghost predicate BillsGrowth(c: Checkpoint, epoch: string, readings: map<string, int>, deltas: map<string, int>)
  {
    && (forall key :: key in deltas ==> deltas[key] > 0)
    && forall key :: BilledFor(c, epoch, readings, key, if key in deltas then deltas[key] else 0)
  }

  /** What is kept of a key: its last reading that was not negative, until it was missing from
      ten observations running that mentioned others. */
  predicate KeptFor(c: Checkpoint, epoch: string, readings: map<string, int>, key: string, next: Checkpoint)
  {
    if key in readings && readings[key] >= 0 then key in next.last && next.last[key] == readings[key]
    else if !Based(c, epoch, key) then key !in next.last
    else if !c.primed || readings == map[] || key in readings then key in next.last && next.last[key] == c.last[key]
    else
      var missed := (if key in c.absent then c.absent[key] else 0) + 1;
      if missed >= 10 then key !in next.last && key !in next.absent
      else key in next.last && next.last[key] == c.last[key] && key in next.absent && next.absent[key] == missed
  }

  ghost predicate KeepsReadings(c: Checkpoint, epoch: string, readings: map<string, int>, next: Checkpoint)
  {
    forall key :: KeptFor(c, epoch, readings, key, next)
  }

  lemma ObservingBills(c: Checkpoint, epoch: string, readings: map<string, int>, next: Checkpoint,
      deltas: map<string, int>)
    requires Observes(c, epoch, readings, next, deltas)
    ensures BillsGrowth(c, epoch, readings, deltas)
  {
    forall key ensures BilledFor(c, epoch, readings, key, if key in deltas then deltas[key] else 0) {
      assert ObserveKey(KeyAt(c, key), c.primed, Restarted(c, epoch), readings == map[], At(readings, key)).1
        == if key in deltas then deltas[key] else 0;
    }
  }

  lemma KeyIsKept(c: Checkpoint, epoch: string, readings: map<string, int>, next: Checkpoint, key: string)
    requires KeyAt(next, key) ==
      ObserveKey(KeyAt(c, key), c.primed, Restarted(c, epoch), readings == map[], At(readings, key)).0
    ensures KeptFor(c, epoch, readings, key, next)
  {
    assert KeyAt(next, key).last.Some? <==> key in next.last;
    assert KeyAt(next, key).absent.Some? <==> key in next.absent;
  }

  lemma ObservingKeeps(c: Checkpoint, epoch: string, readings: map<string, int>, next: Checkpoint,
      deltas: map<string, int>)
    requires Observes(c, epoch, readings, next, deltas)
    ensures KeepsReadings(c, epoch, readings, next)
  {
    forall key ensures KeptFor(c, epoch, readings, key, next) {
      KeyIsKept(c, epoch, readings, next, key);
    }
  }

  lemma SameKeysSameMaps(a: Checkpoint, b: Checkpoint)
    requires forall key :: KeyAt(a, key) == KeyAt(b, key)
    ensures a.last == b.last && a.absent == b.absent
  {
    forall key ensures key in a.last <==> key in b.last {
      assert KeyAt(a, key) == KeyAt(b, key);
    }
    forall key | key in a.last ensures a.last[key] == b.last[key] {
      assert KeyAt(a, key) == KeyAt(b, key);
    }
    forall key ensures key in a.absent <==> key in b.absent {
      assert KeyAt(a, key) == KeyAt(b, key);
    }
    forall key | key in a.absent ensures a.absent[key] == b.absent[key] {
      assert KeyAt(a, key) == KeyAt(b, key);
    }
  }

  /** An observation has one outcome. */
  lemma ObservingIsDeterministic(c: Checkpoint, epoch: string, readings: map<string, int>, a: Checkpoint,
      da: map<string, int>, b: Checkpoint, db: map<string, int>)
    requires Observes(c, epoch, readings, a, da) && Observes(c, epoch, readings, b, db)
    ensures a == b && da == db
  {
    forall key ensures KeyAt(a, key) == KeyAt(b, key) {
    }
    SameKeysSameMaps(a, b);
    forall key ensures (key in da <==> key in db) && (key in da ==> da[key] == db[key]) {
      assert (if key in da then da[key] else 0) ==
        ObserveKey(KeyAt(c, key), c.primed, Restarted(c, epoch), readings == map[], At(readings, key)).1;
      assert (if key in db then db[key] else 0) ==
        ObserveKey(KeyAt(c, key), c.primed, Restarted(c, epoch), readings == map[], At(readings, key)).1;
    }
  }

  // ----- checkpoints -----

  /** What every reachable counter looks like. */
  predicate Sound(c: Checkpoint)
  {
    && (!c.primed ==> c.last == map[] && c.absent == map[])
    && (forall key :: key in c.last ==> c.last[key] >= 0)
    && forall key :: key in c.absent ==> key in c.last && 1 <= c.absent[key] < BASELINE_GRACE
  }

  predicate ValidName(key: string)
  {
    0 < |key| <= 1024
  }

  predicate ValidNames(c: Checkpoint)
  {
    |c.epoch| <= 1024 && forall key :: key in c.last ==> ValidName(key)
  }

  /** Whether a written checkpoint is taken back. */
  predicate Restorable(c: Checkpoint)
  {
    && |c.epoch| <= 1024 && (c.primed || (c.last == map[] && c.absent == map[]))
    && (forall key :: key in c.last ==> ValidName(key) && c.last[key] >= 0)
    && forall key :: key in c.absent ==> key in c.last && 1 <= c.absent[key] < BASELINE_GRACE
  }

  /** A reachable counter's checkpoint is taken back exactly when its names are valid. */
  lemma ReachableIsRestorable(c: Checkpoint)
    requires Sound(c)
    ensures Restorable(c) <==> ValidNames(c)
  {
  }

  /** Every observation of a sound counter leaves a sound one. */
  lemma ObservingStaysSound(c: Checkpoint, epoch: string, readings: map<string, int>, next: Checkpoint,
      deltas: map<string, int>)
    requires Sound(c) && Observes(c, epoch, readings, next, deltas)
    ensures Sound(next)
  {
    forall key | key in next.last ensures next.last[key] >= 0 {
      assert KeyAt(next, key).last == Some(next.last[key]);
    }
    forall key | key in next.absent ensures key in next.last && 1 <= next.absent[key] < BASELINE_GRACE {
      assert KeyAt(next, key).absent == Some(next.absent[key]);
    }
  }

  /** So do a noted restart of the source and a forgotten key. */
  lemma ForgettingStaysSound(c: Checkpoint, next: Checkpoint, key: string)
    requires Sound(c) && next.epoch == c.epoch && next.primed == c.primed
    requires forall k :: KeyAt(next, k) == if k == key then NO_BASELINE else KeyAt(c, k)
    ensures Sound(next) && Sound(c.(last := map[], absent := map[])) && (ValidNames(c) ==> ValidNames(next))
  {
    forall k | k in next.last ensures k in c.last && next.last[k] == c.last[k] {
      assert KeyAt(next, k).last == Some(next.last[k]);
    }
    forall k | k in next.absent ensures k in next.last && k in c.absent && next.absent[k] == c.absent[k] {
      assert KeyAt(next, k).absent == Some(next.absent[k]);
      assert KeyAt(c, k) == KeyAt(next, k);
    }
  }

  /** Noting a restart is the push counterpart of a changed token: what the next
      observation then leaves and bills is what it would have with the token changed,
      and every key is billed its whole reading. */
  lemma NotedRestartIsARestart(c: Checkpoint, epoch: string, readings: map<string, int>, next: Checkpoint,
      deltas: map<string, int>)
    requires c.primed && c.epoch != ""
    ensures epoch != "" && epoch != c.epoch ==>
      (Observes(c, epoch, readings, next, deltas) <==>
        Observes(c.(last := map[], absent := map[]), epoch, readings, next, deltas))
    ensures Observes(c.(last := map[], absent := map[]), epoch, readings, next, deltas) ==>
      forall key :: (key in deltas <==> key in readings && readings[key] > 0)
        && (key in deltas ==> deltas[key] == readings[key])
  {
    var noted := c.(last := map[], absent := map[]);
    assert forall key :: KeyAt(noted, key) == NO_BASELINE;
    if Observes(noted, epoch, readings, next, deltas) {
      forall key ensures (key in deltas <==> key in readings && readings[key] > 0)
        && (key in deltas ==> deltas[key] == readings[key]) {
        assert ObserveKey(KeyAt(noted, key), true, Restarted(noted, epoch), readings == map[], At(readings, key)).1
            == if key in deltas then deltas[key] else 0;
      }
    }
  }

  lemma ObservingKeepsNames(c: Checkpoint, epoch: string, readings: map<string, int>, next: Checkpoint,
      deltas: map<string, int>)
    requires ValidNames(c) && Observes(c, epoch, readings, next, deltas) && |epoch| <= 1024
      && forall key :: key in readings ==> ValidName(key)
    ensures ValidNames(next)
  {
    forall key | key in next.last ensures ValidName(key) {
      assert KeyAt(next, key).last == Some(next.last[key]);
    }
  }

  // ----- the counter itself -----

  /** Key by key: read where it was processed, as it was elsewhere. */
  ghost predicate ReadSoFar(base: Checkpoint, now: Checkpoint, readings: map<string, int>, todo: set<string>)
  {
    forall key :: KeyAt(now, key) == if key in readings
      && key !in todo then Read(KeyAt(base, key), Some(readings[key])) else KeyAt(base, key)
  }

  ghost predicate BilledSoFar(base: Checkpoint, deltas: map<string, int>, readings: map<string, int>, todo: set<string>)
  {
    && (forall key :: (if key in deltas then deltas[key] else 0) ==
          if base.primed && key in readings && key !in todo then Delta(KeyAt(base, key), Some(readings[key])) else 0)
    && forall key :: key in deltas ==> deltas[key] > 0
  }

  ghost predicate ExpiredSoFar(base: Checkpoint, now: Checkpoint, readings: map<string, int>, todo: set<string>)
  {
    forall key :: KeyAt(now, key) == if key in todo then KeyAt(base, key)
      else Expire(KeyAt(base, key), At(readings, key))
  }

  class Counter {
    var last: map<string, int>
    var absent: map<string, int>
    var epoch: string
    var primed: bool

    function View(): Checkpoint
      reads this
    {
      Checkpoint(epoch, primed, last, absent)
    }

    constructor ()
      ensures View() == FRESH
    {
      last, absent, epoch, primed := map[], map[], "", false;
    }

    /** Records one set of readings and returns what accrued since the previous one. */
    method Observe(epoch: string, readings: map<string, int>) returns (deltas: map<string, int>)
      modifies this
      ensures Observes(old(View()), epoch, readings, View(), deltas)
      ensures BillsGrowth(old(View()), epoch, readings, deltas)
      ensures KeepsReadings(old(View()), epoch, readings, View())
      ensures primed && this.epoch == if epoch != "" then epoch else old(this.epoch)
    {
      deltas := Accrue(epoch, readings);
      ObservingBills(old(View()), epoch, readings, View(), deltas);
      ObservingKeeps(old(View()), epoch, readings, View(), deltas);
    }

    method Accrue(epoch: string, readings: map<string, int>) returns (deltas: map<string, int>)
      modifies this
      ensures Observes(old(View()), epoch, readings, View(), deltas)
    {
      if primed && epoch != "" && this.epoch != "" && epoch != this.epoch {
        last, absent := map[], map[];
      }
      if epoch != "" {
        this.epoch := epoch;
      }
      deltas := ReadAll(readings);
      if !primed {
        primed := true;
        return map[];
      }
      ExpireAll(readings);
    }

    method ReadAll(readings: map<string, int>) returns (deltas: map<string, int>)
      modifies `last
      ensures ReadSoFar(old(View()), View(), readings, {}) && BilledSoFar(old(View()), deltas, readings, {})
    {
      deltas := map[];
      var todo := readings.Keys;
      while todo != {}
        invariant todo <= readings.Keys
        invariant ReadSoFar(old(View()), View(), readings, todo) && BilledSoFar(old(View()), deltas, readings, todo)
      {
        var key :| key in todo;
        todo := todo - {key};
        var value := readings[key];
        assert KeyAt(View(), key) == KeyAt(old(View()), key);
        if value < 0 {
          continue;
        }
        var baseline := if key in last then last[key] else 0;
        if key !in last || value < baseline {
          baseline := 0;
        }
        last := last[key := value];
        if primed && value - baseline > 0 {
          deltas := deltas[key := value - baseline];
        }
      }
    }

    /** Ages the baselines a reading did not mention; an empty reading says nothing. */
    method ExpireAll(readings: map<string, int>)
      modifies `last, `absent
      ensures if readings == map[] then View() == old(View()) else ExpiredSoFar(old(View()), View(), readings, {})
    {
      if readings == map[] {
        return;
      }
      var todo := last.Keys;
      while todo != {}
        invariant todo <= old(last).Keys
        invariant ExpiredSoFar(old(View()), View(), readings, todo)
      {
        var key :| key in todo;
        todo := todo - {key};
        assert KeyAt(View(), key) == KeyAt(old(View()), key);
        if key in readings {
          absent := absent - {key};
          continue;
        }
        absent := absent[key := (if key in absent then absent[key] else 0) + 1];
        if absent[key] >= BASELINE_GRACE {
          last, absent := last - {key}, absent - {key};
        }
      }
    }

    /** The source restarted from zero because the panel made it. */
    method NoteSourceRestart()
      modifies `last, `absent
      ensures View() == old(View()).(last := map[], absent := map[])
    {
      last, absent := map[], map[];
    }

    method Forget(key: string)
      modifies `last, `absent
      ensures forall k :: KeyAt(View(), k) == if k == key then NO_BASELINE else old(KeyAt(View(), k))
    {
      last, absent := last - {key}, absent - {key};
    }

    /** A counter from what another process wrote down, or nothing where that is not valid. */
    static method FromCheckpoint(checkpoint: Checkpoint) returns (c: Option<Counter>)
      ensures c.Some? <==> Restorable(checkpoint)
      ensures c.Some? ==> fresh(c.value) && c.value.View() == checkpoint
    {
      if |checkpoint.epoch| > 1024 || (!checkpoint.primed && (|checkpoint.last| != 0 || |checkpoint.absent| != 0)) {
        return None;
      }
      var keys := checkpoint.last.Keys;
      while keys != {}
        invariant keys <= checkpoint.last.Keys && forall key :: key in checkpoint.last && key !in keys ==>
          ValidName(key) && checkpoint.last[key] >= 0
      {
        var key :| key in keys;
        if key == "" || |key| > 1024 || checkpoint.last[key] < 0 {
          return None;
        }
        keys := keys - {key};
      }
      keys := checkpoint.absent.Keys;
      while keys != {}
        invariant keys <= checkpoint.absent.Keys
        invariant forall key :: key in checkpoint.absent && key !in keys ==>
          key in checkpoint.last && 1 <= checkpoint.absent[key] < BASELINE_GRACE
      {
        var key :| key in keys;
        if key !in checkpoint.last || checkpoint.absent[key] < 1 || checkpoint.absent[key] >= BASELINE_GRACE {
          return None;
        }
        keys := keys - {key};
      }
      var result := new Counter();
      result.epoch, result.primed, result.last, result.absent := checkpoint.epoch, checkpoint.primed, checkpoint.last,
        checkpoint.absent;
      return Some(result);
    }

    /** Observes on a copy, hands the outcome to the caller's commit, and takes it
        over only when that succeeded. */
    method ObserveDurably(epoch: string, readings: map<string, int>, commits: bool)
        returns (deltas: Option<map<string, int>>)
      modifies this
      ensures deltas.Some? <==> Restorable(old(View())) && commits
      ensures deltas.Some? ==> Observes(old(View()), epoch, readings, View(), deltas.value)
      ensures deltas.None? ==> View() == old(View())
    {
      var next := FromCheckpoint(View());
      if next.None? {
        return None;
      }
      var accrued := next.value.Observe(epoch, readings);
      if !commits {
        return None;
      }
      last, absent, this.epoch, primed := next.value.last, next.value.absent, next.value.epoch, next.value.primed;
      return Some(accrued);
    }
  }

  // ----- any schedule of commits, failures and restarts -----

  datatype Observation = Observation(epoch: string, readings: map<string, int>)

  /** A durable observation whose commit succeeds or fails, or a new process that
      starts from the last committed checkpoint. */
  datatype Action = Durable(observation: Observation, commits: bool) | NewProcess

  function Committed(schedule: seq<Action>): seq<Observation>
  {
    if schedule == [] then []
    else
      var rest, a := Committed(schedule[..|schedule| - 1]), schedule[|schedule| - 1];
      if a.Durable? && a.commits then rest + [a.observation] else rest
  }

  /** A plain counter taken through a list of observations: what each billed, and where it ends. */
  ghost predicate Bills(list: seq<Observation>, deltas: seq<map<string, int>>, end: Checkpoint)
  {
    && |deltas| == |list|
    && if list == [] then end == FRESH
       else
         var n := |list| - 1;
         exists mid :: Bills(list[..n], deltas[..n], mid)
           && Observes(mid, list[n].epoch, list[n].readings, end, deltas[n])
  }

  lemma BillsOneMore(list: seq<Observation>, deltas: seq<map<string, int>>, mid: Checkpoint, o: Observation,
      delta: map<string, int>, end: Checkpoint)
    requires Bills(list, deltas, mid) && Observes(mid, o.epoch, o.readings, end, delta)
    ensures Bills(list + [o], deltas + [delta], end)
  {
    assert (list + [o])[..|list|] == list && (deltas + [delta])[..|deltas|] == deltas;
  }

  /** What a plain counter bills is determined by what it observes. */
  lemma {:induction false} BillingIsDeterministic(list: seq<Observation>, a: seq<map<string, int>>, endA: Checkpoint,
      b: seq<map<string, int>>, endB: Checkpoint)
    requires Bills(list, a, endA) && Bills(list, b, endB)
    ensures a == b && endA == endB
    decreases |list|
  {
    if list != [] {
      var n := |list| - 1;
      var midA :| Bills(list[..n], a[..n], midA) && Observes(midA, list[n].epoch, list[n].readings, endA, a[n]);
      var midB :| Bills(list[..n], b[..n], midB) && Observes(midB, list[n].epoch, list[n].readings, endB, b[n]);
      BillingIsDeterministic(list[..n], a[..n], midA, b[..n], midB);
      ObservingIsDeterministic(midA, list[n].epoch, list[n].readings, endA, a[n], endB, b[n]);
      assert a == a[..n] + [a[n]] && b == b[..n] + [b[n]];
    }
  }

  predicate ValidObservation(o: Observation)
  {
    |o.epoch| <= 1024 && forall key :: key in o.readings ==> ValidName(key)
  }

  /** Whatever commits fail and wherever processes end, what is billed is exactly
      what a plain counter bills that saw the committed observations and no others. */
  method RunSchedule(schedule: seq<Action>) returns (billed: seq<map<string, int>>, end: Counter)
    requires forall a :: a in schedule && a.Durable? ==> ValidObservation(a.observation)
    ensures fresh(end) && Bills(Committed(schedule), billed, end.View())
  {
    billed := [];
    end := new Counter();
    var stored := FRESH;
    for i := 0 to |schedule|
      invariant fresh(end) && end.View() == stored && Sound(stored) && ValidNames(stored)
      invariant Bills(Committed(schedule[..i]), billed, stored)
    {
      assert schedule[..i + 1][..|schedule[..i + 1]| - 1] == schedule[..i] && schedule[i] in schedule;
      ReachableIsRestorable(stored);
      match schedule[i]
      case Durable(o, commits) =>
        var deltas := end.ObserveDurably(o.epoch, o.readings, commits);
        if deltas.Some? {
          ObservingStaysSound(stored, o.epoch, o.readings, end.View(), deltas.value);
          ObservingKeepsNames(stored, o.epoch, o.readings, end.View(), deltas.value);
          BillsOneMore(Committed(schedule[..i]), billed, stored, o, deltas.value, end.View());
          billed, stored := billed + [deltas.value], Checkpoint(end.epoch, end.primed, end.last, end.absent);
        }
      case NewProcess =>
        var restored := Counter.FromCheckpoint(stored);
        end := restored.value;
    }
    assert schedule[..|schedule|] == schedule;
  }
}
