/** The firewall ban set: what is wanted reduced to what the kernel can hold, and
    written only when it changed. Times are in nanoseconds. */
module BanSet {
  const SECOND := 1_000_000_000

  /** An address, possibly IPv4 in IPv6 form or with a zone. */
  datatype Source = NoSource | V4(value: nat) | Mapped(value: nat, zone: string) | V6(value: nat, zone: string)

  /** The kernel's form of a source: unmapped, without zone. */
  function Bare(s: Source): Source
  {
    match s
    case NoSource => NoSource
    case V4(v) => V4(v)
    case Mapped(v, _) => V4(v)
    case V6(v, _) => V6(v, "")
  }

  datatype Entry = Entry(source: Source, port: nat, until: int)

  type Key = (Source, nat)

  function KeyOf(e: Entry): Key
  {
    (e.source, e.port)
  }

  predicate Live(e: Entry, now: int)
  {
    e.source != NoSource && e.port != 0 && e.until > now
  }

  function BareEntry(e: Entry): Entry
  {
    e.(source := Bare(e.source))
  }

  /** A live entry for a key. */
  predicate Bans(e: Entry, now: int, key: Key)
  {
    Live(e, now) && KeyOf(BareEntry(e)) == key
  }

  /** What is wanted of a key: the latest deadline of its live entries. */
  ghost predicate Wanted(entries: seq<Entry>, now: int, key: Key, until: int)
  {
    && (exists i :: 0 <= i < |entries| && Bans(entries[i], now, key) && entries[i].until == until)
    && forall i :: 0 <= i < |entries| && Bans(entries[i], now, key) ==> entries[i].until <= until
  }

  /** The kernel's set for a list of entries: one element for each, and nothing else. */
  ghost predicate Lists(live: seq<Entry>, entries: seq<Entry>, now: int)
  {
    && (forall i, j :: 0 <= i < j < |live| ==> KeyOf(live[i]) != KeyOf(live[j]))
    && (forall i :: 0 <= i < |live| ==> Wanted(entries, now, KeyOf(live[i]), live[i].until))
    && forall i :: 0 <= i < |entries| && Live(entries[i], now) ==>
      exists j :: 0 <= j < |live| && KeyOf(live[j]) == KeyOf(BareEntry(entries[i]))
  }

  // ----- sorting -----

  function Rank(s: Source): int
  {
    match s case NoSource => 0 case V4(_) => 1 case Mapped(_, _) => 2 case V6(_, _) => 3
  }

  function ValueOf(s: Source): int
  {
    match s case NoSource => 0 case V4(v) => v case Mapped(v, _) => v case V6(v, _) => v
  }

  predicate BareSource(s: Source)
  {
    Bare(s) == s && s != NoSource
  }

  /** By source, then port, then the latest deadline first. */
  predicate Before(a: Entry, b: Entry)
  {
    if Rank(a.source) != Rank(b.source) then Rank(a.source) < Rank(b.source)
    else if ValueOf(a.source) != ValueOf(b.source) then ValueOf(a.source) < ValueOf(b.source)
    else if a.port != b.port then a.port < b.port
    else a.until >= b.until
  }

  predicate Sorted(s: seq<Entry>)
  {
    forall i, j :: 0 <= i < j < |s| ==> Before(s[i], s[j])
  }

  /** The live entries in bare form, each as often as listed. */
  method FilterLive(now: int, entries: seq<Entry>) returns (live: seq<Entry>)
    ensures forall e :: e in live <==>
      exists i :: 0 <= i < |entries| && Live(entries[i], now) && BareEntry(entries[i]) == e
  {
    live := [];
    for i := 0 to |entries|
      invariant forall e :: e in live <==> exists k :: 0 <= k < i && Live(entries[k], now) && BareEntry(entries[k]) == e
    {
      if entries[i].source != NoSource && entries[i].port != 0 && entries[i].until > now {
        live := live + [BareEntry(entries[i])];
      }
    }
  }

  method Insert(s: seq<Entry>, e: Entry) returns (r: seq<Entry>)
    requires Sorted(s)
    ensures Sorted(r) && forall x :: x in r <==> x in s || x == e
  {
    var i := 0;
    while i < |s| && Before(s[i], e)
      invariant 0 <= i <= |s| && forall k :: 0 <= k < i ==> Before(s[k], e)
    {
      i := i + 1;
    }
    r := s[..i] + [e] + s[i..];
    assert forall x :: x in s <==> x in s[..i] || x in s[i..] by {
      assert s == s[..i] + s[i..];
    }
    forall a, b | 0 <= a < b < |r| ensures Before(r[a], r[b]) {
      if a == i {
        assert !Before(s[i], e) && r[b] == s[b - 1];
        assert b - 1 > i ==> Before(s[i], s[b - 1]);
      }
    }
  }

  method Sort(s: seq<Entry>) returns (r: seq<Entry>)
    ensures Sorted(r) && forall x :: x in r <==> x in s
  {
    r := [];
    for i := 0 to |s|
      invariant Sorted(r) && forall x :: x in r <==> x in s[..i]
    {
      assert s[..i + 1] == s[..i] + [s[i]];
      r := Insert(r, s[i]);
    }
    assert s[..|s|] == s;
  }

  predicate HasKey(s: seq<Entry>, key: Key)
  {
    exists e :: e in s && KeyOf(e) == key
  }

  /** No entry of the same key has a later deadline. */
  predicate Latest(s: seq<Entry>, e: Entry)
  {
    forall x :: x in s && KeyOf(x) == KeyOf(e) ==> x.until <= e.until
  }

  predicate DistinctKeys(r: seq<Entry>)
  {
    forall i, j :: 0 <= i < j < |r| ==> KeyOf(r[i]) != KeyOf(r[j])
  }

  /** One entry for each key of a part of a list, the latest of the whole list. */
  ghost predicate Compacts(r: seq<Entry>, part: seq<Entry>, all: seq<Entry>)
  {
    DistinctKeys(r) && (forall e :: e in r ==> e in part && Latest(all, e)) && forall e :: e in part ==>
      HasKey(r, KeyOf(e))
  }

  /** In a sorted list, an entry whose key differs from the one before is the
      first and the latest of its key. */
  lemma FirstIsLatest(s: seq<Entry>, n: int)
    requires Sorted(s) && (forall e :: e in s ==> BareSource(e.source)) && 0 <= n < |s|
      && (n == 0 || KeyOf(s[n]) != KeyOf(s[n - 1]))
    ensures !HasKey(s[..n], KeyOf(s[n])) && Latest(s, s[n])
  {
    assert forall m :: 0 <= m < |s| ==> s[m] in s;
    forall m | 0 <= m < n ensures KeyOf(s[m]) != KeyOf(s[n]) {
      assert m < n - 1 ==> Before(s[m], s[n - 1]);
      assert Before(s[n - 1], s[n]);
    }
    forall x | x in s && KeyOf(x) == KeyOf(s[n]) ensures x.until <= s[n].until {
      var m :| 0 <= m < |s| && s[m] == x;
      assert n < m ==> Before(s[n], s[m]);
    }
  }

  lemma CompactsNew(r: seq<Entry>, part: seq<Entry>, all: seq<Entry>, e: Entry)
    requires Compacts(r, part, all) && !HasKey(part, KeyOf(e)) && Latest(all, e)
    ensures Compacts(r + [e], part + [e], all)
  {
    assert e in r + [e];
    forall i | 0 <= i < |r| ensures KeyOf(r[i]) != KeyOf(e) {
      assert r[i] in r && r[i] in part;
    }
    forall x | x in part + [e] ensures HasKey(r + [e], KeyOf(x)) {
      if x in part {
        var y :| y in r && KeyOf(y) == KeyOf(x);
        assert y in r + [e];
      }
    }
  }

  lemma CompactsOld(r: seq<Entry>, part: seq<Entry>, all: seq<Entry>, e: Entry)
    requires Compacts(r, part, all) && HasKey(part, KeyOf(e))
    ensures Compacts(r, part + [e], all)
  {
  }

  /** The first of every run of entries with one key. */
  method Compact(s: seq<Entry>) returns (r: seq<Entry>)
    requires Sorted(s) && forall e :: e in s ==> BareSource(e.source)
    ensures Compacts(r, s, s)
  {
    r := [];
    for n := 0 to |s|
      invariant Compacts(r, s[..n], s)
    {
      assert s[..n + 1] == s[..n] + [s[n]];
      if n == 0 || KeyOf(s[n]) != KeyOf(s[n - 1]) {
        FirstIsLatest(s, n);
        CompactsNew(r, s[..n], s, s[n]);
        r := r + [s[n]];
      } else {
        assert s[n - 1] in s[..n];
        CompactsOld(r, s[..n], s, s[n]);
      }
    }
    assert s[..|s|] == s;
  }

  lemma ListsFrom(r: seq<Entry>, bare: seq<Entry>, entries: seq<Entry>, now: int)
    requires forall e :: e in bare <==>
      exists i :: 0 <= i < |entries| && Live(entries[i], now) && BareEntry(entries[i]) == e
    requires DistinctKeys(r) && (forall e :: e in r ==> e in bare && Latest(bare, e)) && forall e :: e in bare ==>
      HasKey(r, KeyOf(e))
    ensures Lists(r, entries, now)
  {
    forall i | 0 <= i < |r| ensures Wanted(entries, now, KeyOf(r[i]), r[i].until) {
      assert r[i] in r && r[i] in bare;
      var n :| 0 <= n < |entries| && Live(entries[n], now) && BareEntry(entries[n]) == r[i];
      assert Bans(entries[n], now, KeyOf(r[i]));
      forall m | 0 <= m < |entries| && Bans(entries[m], now, KeyOf(r[i])) ensures entries[m].until <= r[i].until {
        assert BareEntry(entries[m]) in bare;
      }
    }
    forall n | 0 <= n < |entries| && Live(entries[n], now)
      ensures exists j :: 0 <= j < |r| && KeyOf(r[j]) == KeyOf(BareEntry(entries[n])) {
      assert BareEntry(entries[n]) in bare;
      var e :| e in r && KeyOf(e) == KeyOf(BareEntry(entries[n]));
      var j :| 0 <= j < |r| && r[j] == e;
    }
  }

  /** An entry asks for an element: a port, a deadline ahead, and the same address once an
      IPv4 address in IPv6 form is taken as IPv4 and a zone is dropped. */
  predicate AsksFor(e: Entry, element: Entry, now: int)
  {
    && e.port == element.port != 0 && e.until > now
    && match e.source
       case NoSource => false
       case V4(v) => element.source == V4(v)
       case Mapped(v, _) => element.source == V4(v)
       case V6(v, _) => element.source == V6(v, "")
  }

  /** An element was asked for until its deadline by some entry, and beyond it by none. */
  ghost predicate AskedFor(element: Entry, entries: seq<Entry>, now: int)
  {
    && (exists k :: 0 <= k < |entries| && AsksFor(entries[k], element, now) && entries[k].until == element.until)
    && forall k :: 0 <= k < |entries| && AsksFor(entries[k], element, now) ==> entries[k].until <= element.until
  }

  /** An entry that asks for anything has its element. */
  ghost predicate Answered(e: Entry, live: seq<Entry>, now: int)
  {
    e.source != NoSource && e.port != 0 && e.until > now ==> exists i :: 0 <= i < |live| && AsksFor(e, live[i], now)
  }

  ghost predicate Answers(live: seq<Entry>, entries: seq<Entry>, now: int)
  {
    && (forall i :: 0 <= i < |live| ==> AskedFor(live[i], entries, now))
    && (forall k :: 0 <= k < |entries| ==> Answered(entries[k], live, now))
  }

  lemma BansIsAsksFor(e: Entry, element: Entry, now: int)
    ensures Bans(e, now, KeyOf(element)) <==> AsksFor(e, element, now)
  {
  }

  lemma WantedIsAskedFor(element: Entry, entries: seq<Entry>, now: int)
    requires Wanted(entries, now, KeyOf(element), element.until)
    ensures AskedFor(element, entries, now)
  {
    forall k | 0 <= k < |entries|
      ensures Bans(entries[k], now, KeyOf(element)) <==> AsksFor(entries[k], element, now)
    {
      BansIsAsksFor(entries[k], element, now);
    }
  }

  lemma ListingAnswers(live: seq<Entry>, entries: seq<Entry>, now: int)
    requires Lists(live, entries, now)
    ensures Answers(live, entries, now)
  {
    forall i | 0 <= i < |live| ensures AskedFor(live[i], entries, now) {
      WantedIsAskedFor(live[i], entries, now);
    }
    forall k | 0 <= k < |entries| ensures Answered(entries[k], live, now) {
      if entries[k].source != NoSource && entries[k].port != 0 && entries[k].until > now {
        assert Live(entries[k], now);
        var j :| 0 <= j < |live| && KeyOf(live[j]) == KeyOf(BareEntry(entries[k]));
        BansIsAsksFor(entries[k], live[j], now);
      }
    }
  }

  /** One element a source and port, with its latest deadline, and nothing expired. */
  method LiveSorted(now: int, entries: seq<Entry>) returns (live: seq<Entry>)
    ensures Lists(live, entries, now) && forall e :: e in live ==> e.until > now
    ensures Answers(live, entries, now)
  {
    var bare := FilterLive(now, entries);
    var sorted := Sort(bare);
    forall e | e in sorted ensures BareSource(e.source) {
      var i :| 0 <= i < |entries| && Live(entries[i], now) && BareEntry(entries[i]) == e;
    }
    live := Compact(sorted);
    ListsFrom(live, sorted, entries, now);
    ListingAnswers(live, entries, now);
  }

  // ----- what is written, and when -----

  /** When the kernel drops an element written at a time: the deadline rounded up
      to whole seconds from then, and at least one. */
  function Expiry(now: int, until: int): int
  {
    var seconds := (until - now + SECOND - 1) / SECOND;
    now + (if seconds < 1 then 1 else seconds) * SECOND
  }

  lemma ExpiryIsClose(now: int, until: int)
    requires until > now
    ensures until <= Expiry(now, until) < until + SECOND
  {
  }

  /** The want itself: sources, ports and deadlines to the second. */
  function Fingerprint(live: seq<Entry>): seq<(Source, nat, int)>
  {
    seq(|live|, i requires 0 <= i < |live| => (live[i].source, live[i].port, live[i].until / SECOND))
  }

  /** The kernel's set after a list was written at a time. */
  ghost predicate Written(elements: map<Key, int>, at: int, live: seq<Entry>)
  {
    && (forall key :: key in elements <==> HasKey(live, key))
    && forall e :: e in live ==> KeyOf(e) in elements && elements[KeyOf(e)] == Expiry(at, e.until)
  }

  /** The set holds exactly the wanted keys, each for less than a second too short
      and less than two seconds too long. */
  ghost predicate Close(elements: map<Key, int>, live: seq<Entry>)
  {
    && (forall key :: key in elements <==> HasKey(live, key))
    && forall e :: e in live ==> KeyOf(e) in elements && -SECOND < elements[KeyOf(e)] - e.until < 2 * SECOND
  }

  /** The elements that have not expired are exactly the wanted ones. */
  ghost predicate Exact(elements: map<Key, int>, live: seq<Entry>, now: int)
  {
    forall key :: (key in elements && elements[key] > now) <==> HasKey(live, key)
  }

  /** Two lists of one fingerprint hold the same keys, with deadlines in the same second. */
  lemma SameFingerprint(a: seq<Entry>, b: seq<Entry>, i: int)
    requires Fingerprint(a) == Fingerprint(b) && 0 <= i < |a|
    ensures |a| == |b| && KeyOf(a[i]) == KeyOf(b[i]) && a[i].until / SECOND == b[i].until / SECOND
      && -SECOND < a[i].until - b[i].until < SECOND
  {
    assert |Fingerprint(a)| == |a| && |Fingerprint(b)| == |b|;
    assert Fingerprint(a)[i] == Fingerprint(b)[i];
  }

  lemma SameKeys(a: seq<Entry>, b: seq<Entry>, key: Key)
    requires Fingerprint(a) == Fingerprint(b)
    ensures HasKey(a, key) <==> HasKey(b, key)
  {
    assert |Fingerprint(a)| == |a| && |Fingerprint(b)| == |b|;
    if HasKey(a, key) {
      var e :| e in a && KeyOf(e) == key;
      var i :| 0 <= i < |a| && a[i] == e;
      SameFingerprint(a, b, i);
      assert b[i] in b;
    }
    if HasKey(b, key) {
      var e :| e in b && KeyOf(e) == key;
      var i :| 0 <= i < |b| && b[i] == e;
      SameFingerprint(b, a, i);
      assert a[i] in a;
    }
  }

  /** A set written for one list is close to every list of the same fingerprint. */
  lemma WrittenIsClose(elements: map<Key, int>, at: int, written: seq<Entry>, live: seq<Entry>)
    requires Written(elements, at, written) && Fingerprint(live) == Fingerprint(written)
      && forall e :: e in written ==> e.until > at
    ensures Close(elements, live)
  {
    forall key ensures key in elements <==> HasKey(live, key) {
      SameKeys(live, written, key);
    }
    forall e | e in live ensures KeyOf(e) in elements && -SECOND < elements[KeyOf(e)] - e.until < 2 * SECOND {
      var i :| 0 <= i < |live| && live[i] == e;
      SameFingerprint(live, written, i);
      assert written[i] in written;
      ExpiryIsClose(at, written[i].until);
    }
  }

  /** A set that was not written again is exact exactly until the first of the
      deadlines it was written with, rounded up, has passed. */
  lemma SkippedIsExactIff(elements: map<Key, int>, at: int, written: seq<Entry>, live: seq<Entry>, now: int)
    requires Written(elements, at, written) && Fingerprint(live) == Fingerprint(written)
    ensures Exact(elements, live, now) <==> forall e :: e in written ==> now < Expiry(at, e.until)
  {
    forall key ensures HasKey(live, key) <==> HasKey(written, key) {
      SameKeys(live, written, key);
    }
    if Exact(elements, live, now) {
      forall e | e in written ensures now < Expiry(at, e.until) {
        assert HasKey(written, KeyOf(e));
      }
    }
    if forall e :: e in written ==> now < Expiry(at, e.until) {
      forall key ensures (key in elements && elements[key] > now) <==> HasKey(live, key) {
        if HasKey(written, key) {
          var e :| e in written && KeyOf(e) == key;
        }
      }
    }
  }

  /** So it is exact while no deadline moved on within its second. */
  lemma UnmovedIsExact(elements: map<Key, int>, at: int, written: seq<Entry>, live: seq<Entry>, now: int)
    requires Written(elements, at, written) && Fingerprint(live) == Fingerprint(written)
      && (forall e :: e in written ==> e.until > at)
    requires |live| == |written| && forall i :: 0 <= i < |live| ==> now < live[i].until <= written[i].until
    ensures Exact(elements, live, now)
  {
    forall e | e in written ensures now < Expiry(at, e.until) {
      var i :| 0 <= i < |written| && written[i] == e;
      ExpiryIsClose(at, e.until);
    }
    SkippedIsExactIff(elements, at, written, live, now);
  }

  /** A deadline moved on within its second is not written again: a ban written at
      9 s until 10 s and wanted until 10.9 s is gone from the host at 10.5 s. */
  lemma MovedDeadlineIsMissed()
    ensures var written, wanted := Entry(V4(1), 443, 10 * SECOND), Entry(V4(1), 443, 10 * SECOND + 900_000_000);
      var now := 10 * SECOND + 500_000_000;
      && Fingerprint([wanted]) == Fingerprint([written]) && Live(wanted, now)
      && Written(map[(V4(1), 443) := 10 * SECOND], 9 * SECOND, [written])
        && !Exact(map[(V4(1), 443) := 10 * SECOND], [wanted], now)
  {
    var written, wanted := Entry(V4(1), 443, 10 * SECOND), Entry(V4(1), 443, 10 * SECOND + 900_000_000);
    assert written in [written] && wanted in [wanted];
    assert HasKey([written], KeyOf(written)) && HasKey([wanted], KeyOf(wanted));
  }

  /** The host's set, written whole or not at all. */
  class Firewall {
    var elements: map<Key, int>

    method Apply(script: map<Key, int>) returns (ok: bool)
      modifies this
      ensures elements == if ok then script else old(elements)
    {
      ok := *;
      if ok {
        elements := script;
      }
    }
  }

  class Manager {
    const host: Firewall
    var applied: seq<(Source, nat, int)>
    var primed: bool
    ghost var written: seq<Entry>
    ghost var writtenAt: int

    /** Once written, the host holds what the fingerprint stands for. */
    ghost predicate Valid()
      reads this, host
    {
      primed ==>
        applied == Fingerprint(written) && Written(host.elements, writtenAt, written) && forall e :: e in written ==>
        e.until > writtenAt
    }

    constructor (host: Firewall)
      ensures this.host == host && !primed && Valid()
    {
      this.host, applied, primed := host, [], false;
    }

    /** The elements and timeouts of a list. */
    method Render(now: int, live: seq<Entry>) returns (script: map<Key, int>)
      requires DistinctKeys(live)
      ensures Written(script, now, live)
    {
      script := map[];
      for i := 0 to |live|
        invariant Written(script, now, live[..i])
      {
        assert live[..i + 1] == live[..i] + [live[i]];
        assert !HasKey(live[..i], KeyOf(live[i]));
        var seconds := (live[i].until - now + SECOND - 1) / SECOND;
        if seconds < 1 {
          seconds := 1;
        }
        RenderOne(script, now, live[..i], live[i]);
        script := script[(live[i].source, live[i].port) := now + seconds * SECOND];
      }
      assert live[..|live|] == live;
    }

    /** Writes the set when it changed or was never written. After every success the
        host holds exactly the wanted keys, close to the wanted deadlines; a failed
        write changes nothing, and the next pass tries again. */
    method Converge(now: int, entries: seq<Entry>) returns (ok: bool, wrote: bool, ghost live: seq<Entry>)
      requires Valid()
      modifies this, host
      ensures Valid() && Lists(live, entries, now)
      ensures ok ==> Close(host.elements, live)
      ensures wrote ==> ok && Exact(host.elements, live, now)
      ensures ok && !wrote ==>
        primed && host.elements == old(host.elements) && old(applied) == applied == Fingerprint(live)
      ensures ok && !wrote ==>
        (Exact(host.elements, live, now) <==> forall e :: e in old(written) ==> now < Expiry(old(writtenAt), e.until))
      ensures !ok ==> host.elements == old(host.elements) && applied == old(applied) && primed == old(primed)
      ensures ok && !(old(primed) && old(applied) == Fingerprint(live)) ==> wrote
    {
      var list := LiveSorted(now, entries);
      live := list;
      var want := Fingerprint(list);
      if primed && want == applied {
        WrittenIsClose(host.elements, writtenAt, written, live);
        SkippedIsExactIff(host.elements, writtenAt, written, live, now);
        return true, false, live;
      }
      var script := Render(now, list);
      ok := host.Apply(script);
      if !ok {
        return false, false, live;
      }
      applied, primed, written, writtenAt := want, true, live, now;
      WrittenIsClose(host.elements, now, live, live);
      forall e | e in live ensures now < Expiry(now, e.until) {
        ExpiryIsClose(now, e.until);
      }
      SkippedIsExactIff(host.elements, now, live, live, now);
      return true, true, live;
    }
  }

  lemma RenderOne(script: map<Key, int>, now: int, part: seq<Entry>, e: Entry)
    requires Written(script, now, part) && !HasKey(part, KeyOf(e))
    ensures Written(script[KeyOf(e) := Expiry(now, e.until)], now, part + [e])
  {
    assert e in part + [e];
    forall key ensures key in script[KeyOf(e) := Expiry(now, e.until)] <==> HasKey(part + [e], key) {
      if HasKey(part, key) {
        var x :| x in part && KeyOf(x) == key;
        assert x in part + [e];
      }
    }
    forall x | x in part ensures KeyOf(x) != KeyOf(e) {
    }
  }
}
