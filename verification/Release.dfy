/** Crash-safe release activation on a node: a ledger file, a journal file and a
    symlink, where the process may fail or die around any write. */
module Release {
  import opened Results

  /** A recorded release: its directory, the digest of its manifest, its sequence
      and the durable state format it reads. */
  datatype Record = Record(directory: string, manifest: nat, sequence: int, format: int)

  /** What a release directory holds. */
  datatype Content = Content(record: Record, assets: nat)

  datatype HighWater = HighWater(sequence: int, manifest: nat)

  datatype Journal = Journal(target: Record, fallback: Record, previous: Option<Record>)

  datatype Ledger = Ledger(active: Record, previous: Option<Record>, high: HighWater, pending: Option<Journal>)

  /** The durable state. `current` is the directory the symlink points at. */
  datatype Image = Image(ledger: Ledger, journal: Option<Journal>, current: string, releases: map<string, Content>)

  /** A recorded release is there and is the one that was recorded. */
  predicate Recorded(releases: map<string, Content>, r: Record)
  {
    r.directory in releases && releases[r.directory].record == r
  }

  function HighOf(r: Record): HighWater
  {
    HighWater(r.sequence, r.manifest)
  }

  /** The high-water mark as a start reads it: the journal's target counts already. */
  function EffectiveHigh(d: Image): HighWater
  {
    match d.journal
    case Some(j) => if j.target.sequence >= d.ledger.high.sequence then HighOf(j.target) else d.ledger.high
    case None => d.ledger.high
  }

  /** What a start makes of the disk: the ledger with its pending activation, or an error. */
  function LoadLedger(d: Image): Option<Ledger>
  {
    if !Recorded(d.releases, d.ledger.active) then None
    else if d.ledger.high.sequence < d.ledger.active.sequence then None
    else
      match d.journal
      case Some(j) =>
        if d.ledger.active != j.target && d.ledger.active != j.fallback then None
        else if !Recorded(d.releases, j.target) || !Recorded(d.releases, j.fallback) then None
        else if j.target.format != j.fallback.format then None
        else if j.target.sequence == d.ledger.high.sequence && j.target.manifest != d.ledger.high.manifest then None
        else Some(d.ledger.(high := EffectiveHigh(d), pending := Some(j)))
      case None =>
        if d.ledger.pending.Some? then None
        else if d.current != d.ledger.active.directory then None
        else Some(d.ledger)
  }

  // ----- the invariant -----

  /** The release a recovery goes back to: the one active before the operation
      the journal belongs to, or the active one when there is no journal. */
  function Committed(d: Image): Record
  {
    match d.journal case Some(j) => j.fallback case None => d.ledger.active
  }

  predicate JournalOk(d: Image, j: Journal)
  {
    && (d.ledger.active == j.target || d.ledger.active == j.fallback)
    && Recorded(d.releases, j.target) && Recorded(d.releases, j.fallback) && j.target.format == j.fallback.format
    && (j.target.sequence > d.ledger.high.sequence || HighOf(j.target) == d.ledger.high)
    && (d.ledger.pending.None? || d.ledger.pending == Some(j)) && j.target.sequence >= j.fallback.sequence
  }

  predicate DiskOk(d: Image)
  {
    && Recorded(d.releases, d.ledger.active) && d.ledger.high.sequence >= d.ledger.active.sequence
    && match d.journal
       case Some(j) => JournalOk(d, j)
       case None => d.ledger.pending.None? && d.current == d.ledger.active.directory
  }

  /** Every state the invariant describes is one a start accepts. */
  lemma StartsFromAnywhere(d: Image)
    requires DiskOk(d)
    ensures LoadLedger(d) == Some(d.ledger.(high := EffectiveHigh(d), pending := d.journal))
  {
  }

  /** How one operation ended: it finished, it raised, or the process died. After
      anything but `Done` a write may or may not have reached the disk. */
  datatype Step = Done | Raised | Crashed

  class Disk {
    var ledger: Ledger
    var journal: Option<Journal>
    var current: string
    var releases: map<string, Content>

    function View(): Image
      reads this
    {
      Image(ledger, journal, current, releases)
    }

    constructor (image: Image)
      ensures View() == image
    {
      ledger, journal, current, releases := image.ledger, image.journal, image.current, image.releases;
    }

    method WriteJournal(j: Journal) returns (s: Step)
      modifies `journal
      ensures journal == Some(j) || (s != Done && journal == old(journal))
    {
      s := *;
      var reached := *;
      if s == Done || reached {
        journal := Some(j);
      }
    }

    method SaveLedger(l: Ledger) returns (s: Step)
      modifies `ledger
      ensures ledger == l || (s != Done && ledger == old(ledger))
    {
      s := *;
      var reached := *;
      if s == Done || reached {
        ledger := l;
      }
    }

    method ClearActivation() returns (s: Step)
      modifies `journal
      ensures journal == None || (s != Done && journal == old(journal))
    {
      s := *;
      var reached := *;
      if s == Done || reached {
        journal := None;
      }
    }

    /** Stops the services, moves the symlink and starts them again; it may fail
        or die before or after the move. */
    method ActivateRelease(r: Record) returns (s: Step)
      modifies `current
      ensures current == r.directory || (s != Done && current == old(current))
      ensures s == Done ==> Recorded(releases, r)
    {
      if !Recorded(releases, r) {
        return Raised;
      }
      s := *;
      var moved := *;
      if s == Done || moved {
        current := r.directory;
      }
    }

    /** Fetches a verified release and puts it in its directory, all at once. */
    method FetchRelease(sequence: int) returns (s: Step, content: Content)
      modifies `releases
      ensures forall dir :: dir in old(releases) ==> dir in releases && releases[dir] == old(releases[dir])
      ensures s == Done ==>
        content.record.sequence == sequence && Recorded(releases, content.record)
        && releases[content.record.directory] == content
    {
      content := *;
      s := *;
      if s == Done {
        if content.record.sequence != sequence
          || (content.record.directory in releases && releases[content.record.directory] != content) {
          return Raised, content;
        }
        releases := releases[content.record.directory := content];
      }
    }

    /** Back to the fallback: activate it, record it, and only then forget the journal. */
    method RecoverActivation(l: Ledger) returns (s: Step)
      requires DiskOk(View()) && journal.Some? && l.pending == journal && l.high == EffectiveHigh(View())
      requires l.active == journal.value.target || l.active == journal.value.fallback
      modifies `ledger, `journal, `current
      ensures DiskOk(View()) && Committed(View()) == old(Committed(View()))
        && EffectiveHigh(View()) == old(EffectiveHigh(View()))
      ensures s == Done ==>
        journal.None? && ledger.pending.None? && ledger.active == old(Committed(View()))
        && current == ledger.active.directory
      ensures journal.Some? ==> journal == old(journal)
    {
      var j := l.pending.value;
      s := ActivateRelease(j.fallback);
      if s != Done {
        return;
      }
      s := SaveLedger(l.(active := j.fallback, previous := j.previous, pending := None));
      if s != Done {
        return;
      }
      s := ClearActivation();
    }

    /** The rest of an accepted update, from the journal on: the ledger names it
        pending, the release is activated, the ledger commits it, the journal goes.
        What raises on the way is answered by a recovery. */
    method Commit(l: Ledger, target: Record) returns (s: Step)
      requires DiskOk(View()) && journal == Some(Journal(target, l.active, l.previous)) && ledger.active == l.active
      requires l.high == HighOf(target) && l.high == EffectiveHigh(View()) && l.pending == journal
      modifies `ledger, `journal, `current
      ensures DiskOk(View()) && EffectiveHigh(View()) == HighOf(target)
      ensures s == Done ==> journal.None? && ledger.active == target
      ensures journal.Some? ==> journal == old(journal)
      ensures ledger.active == l.active || ledger.active == target
      ensures journal.None? && ledger.active != l.active ==> ledger.previous == Some(l.active)
    {
      s := SaveLedger(l);
      if s != Done {
        return;
      }
      s := ActivateRelease(target);
      if s == Done {
        s := SaveLedger(l.(active := target, previous := Some(l.active), pending := None));
      }
      if s == Raised {
        var undone := RecoverActivation(l);
        return if undone == Crashed then Crashed else Raised;
      }
      if s == Done {
        s := ClearActivation();
      }
    }

    /** One run of the updater: recover what was interrupted, or fetch, check and
        activate a release. Whatever it did and wherever it died, the disk is one the
        next run accepts, and the high-water mark did not go down. */
    method UpdateLocked(recover: bool, rollback: bool, sequence: int) returns (s: Step, fetched: Option<Content>)
      requires DiskOk(View())
      modifies this
      ensures DiskOk(View())
      ensures EffectiveHigh(View()) == old(EffectiveHigh(View()))
        || EffectiveHigh(View()).sequence > old(EffectiveHigh(View())).sequence
      ensures Committed(View()) == old(Committed(View()))
        || (journal.None? && ledger.previous == Some(old(Committed(View()))))
      ensures old(journal).Some? ==> Committed(View()) == old(Committed(View()))
      ensures s == Done ==> journal.None? && ledger.pending.None? && current == ledger.active.directory
      ensures old(journal).Some? && s == Done ==> ledger.active == old(Committed(View()))
      ensures s == Done && old(journal).None? && fetched.None? ==> recover && View() == old(View())
      ensures old(journal).None? && recover ==> s == Done && View() == old(View())
      ensures old(journal).Some? ==>
        EffectiveHigh(View()) == old(EffectiveHigh(View())) && (journal.None? || journal == old(journal))
      ensures s == Done && fetched.Some? ==>
        ledger.active.manifest == fetched.value.record.manifest && fetched.value.record.sequence == sequence
      ensures ledger.active != old(ledger.active) && old(journal).None? ==>
        && fetched.Some? && ledger.active == fetched.value.record && ledger.active.format == old(ledger.active.format)
          && ledger.active.sequence >= old(ledger.high.sequence)
        && (rollback ==>
          old(ledger.previous).Some? && Recorded(releases, old(ledger.previous).value)
          && fetched.value.assets == releases[old(ledger.previous).value.directory].assets)
    {
      fetched := None;
      StartsFromAnywhere(View());
      var loaded := LoadLedger(View());
      if loaded.None? {
        return Raised, None;
      }
      var l := loaded.value;
      if l.pending.Some? {
        s := RecoverActivation(l);
        return;
      }
      if recover {
        return Done, None;
      }
      var content;
      s, content := FetchRelease(sequence);
      if s != Done {
        return;
      }
      fetched := Some(content);
      var target := content.record;
      if target.sequence < l.high.sequence
        || (target.sequence == l.high.sequence && target.manifest != l.high.manifest)
        || target.format != l.active.format {
        return Raised, fetched;
      }
      if target.manifest == l.active.manifest {
        return Done, fetched;
      }
      if rollback {
        if l.previous.None? || !Recorded(releases, l.previous.value)
          || content.assets != releases[l.previous.value.directory].assets {
          return Raised, fetched;
        }
      }
      var pending := Journal(target, l.active, l.previous);
      s := WriteJournal(pending);
      if s != Done {
        return;
      }
      s := Commit(l.(high := HighOf(target), pending := Some(pending)), target);
    }

    /** Any number of recoveries, each ending in any way: none of them, nor all of
        them together, can lose the release to go back to, and the first that
        completes is back at it. */
    method Recoveries(tries: nat) returns (done: bool)
      requires DiskOk(View())
      modifies this
      ensures DiskOk(View()) && LoadLedger(View()).Some?
      ensures Committed(View()) == old(Committed(View())) && EffectiveHigh(View()) == old(EffectiveHigh(View()))
      ensures done ==>
        journal.None? && ledger.pending.None? && ledger.active == old(Committed(View()))
        && current == ledger.active.directory
      ensures journal.Some? ==> journal == old(journal)
    {
      done := false;
      for i := 0 to tries
        invariant DiskOk(View()) && Committed(View()) == old(Committed(View()))
          && EffectiveHigh(View()) == old(EffectiveHigh(View()))
        invariant done ==> journal.None?
        invariant journal.Some? ==> journal == old(journal)
      {
        var s, _ := UpdateLocked(true, false, 0);
        done := done || s == Done;
      }
      StartsFromAnywhere(View());
    }

    /** Any number of runs, each ending in any way, from any accepted disk: the
        committed release only ever gives way to one at least as new, of the same
        durable state format. */
    method Runs(requests: seq<(bool, bool, int)>)
      requires DiskOk(View())
      modifies this
      ensures DiskOk(View()) && LoadLedger(View()).Some?
      ensures EffectiveHigh(View()).sequence >= old(EffectiveHigh(View())).sequence
      ensures Committed(View()).sequence >= old(Committed(View())).sequence
        && Committed(View()).format == old(Committed(View())).format
    {
      for i := 0 to |requests|
        invariant DiskOk(View()) && EffectiveHigh(View()).sequence >= old(EffectiveHigh(View())).sequence
        invariant Committed(View()).sequence >= old(Committed(View())).sequence
          && Committed(View()).format == old(Committed(View())).format
      {
        var _, _ := UpdateLocked(requests[i].0, requests[i].1, requests[i].2);
      }
      StartsFromAnywhere(View());
    }
  }
}
