/** The counting difference of two lists: what to add and what to delete. */
module Diffs {
  lemma TakeOneMore<T>(s: seq<T>, i: int)
    requires 0 <= i < |s|
    ensures s[..i + 1] == s[..i] + [s[i]] && multiset(s[..i + 1]) == multiset(s[..i]) + multiset{s[i]}
  {
    assert s[..i + 1] == s[..i] + [s[i]];
  }

  /** How many of an item the pool still holds. */
  function Left<T(==)>(pool: map<T, int>, item: T): int
  {
    if item in pool then pool[item] else 0
  }

  ghost predicate Holds<T(!new)>(pool: map<T, int>, items: multiset<T>)
  {
    forall x: T :: Left(pool, x) == items[x]
  }

  lemma HoldsOneLess<T(!new)>(pool: map<T, int>, items: multiset<T>, x: T)
    requires Holds(pool, items) && x in items
    ensures x in pool && Holds(pool[x := pool[x] - 1], items - multiset{x})
  {
    assert Left(pool, x) == items[x];
  }

  lemma OneMoreWanted<T>(have: multiset<T>, taken: multiset<T>, x: T)
    ensures x in have - taken ==>
      have - (taken + multiset{x}) == (have - taken) - multiset{x} && (taken + multiset{x}) - have == taken - have
    ensures x !in have - taken ==>
      have - (taken + multiset{x}) == have - taken && (taken + multiset{x}) - have == (taken - have) + multiset{x}
  {
  }

  lemma MoveOne<T>(from: multiset<T>, to: multiset<T>, x: T)
    requires x in from
    ensures (to + multiset{x}) + (from - multiset{x}) == to + from
  {
  }

  lemma DropOneMore<T>(s: seq<T>, i: int)
    requires 0 <= i < |s|
    ensures multiset(s[i..]) == multiset{s[i]} + multiset(s[i + 1..])
  {
    assert s[i..] == [s[i]] + s[i + 1..];
  }

  lemma NothingLeft<T>(taken: multiset<T>, left: multiset<T>, s: seq<T>)
    requires left <= multiset(s[|s|..])
    ensures taken + left == taken
  {
    assert s[|s|..] == [];
  }

  lemma OneLessListed<T>(left: multiset<T>, rest: multiset<T>, x: T)
    requires left <= multiset{x} + rest
    ensures if x in left then left - multiset{x} <= rest else left <= rest
  {
  }

  method CountItems<T(==, !new)>(have: seq<T>) returns (pool: map<T, int>)
    ensures Holds(pool, multiset(have))
  {
    pool := map[];
    for i := 0 to |have|
      invariant Holds(pool, multiset(have[..i]))
    {
      TakeOneMore(have, i);
      pool := pool[have[i] := Left(pool, have[i]) + 1];
    }
    assert have[..|have|] == have;
  }

  /** What is wanted and not in the pool, taking the rest out of it. */
  method TakeWanted<T(==, !new)>(want: seq<T>, stock: map<T, int>, ghost have: multiset<T>)
      returns (add: seq<T>, pool: map<T, int>)
    requires Holds(stock, have)
    ensures multiset(add) == multiset(want) - have && Holds(pool, have - multiset(want))
  {
    add, pool := [], stock;
    ghost var taken: multiset<T> := multiset{};
    for i := 0 to |want|
      invariant taken == multiset(want[..i])
      invariant Holds(pool, have - taken)
      invariant multiset(add) == taken - have
    {
      TakeOneMore(want, i);
      OneMoreWanted(have, taken, want[i]);
      assert Left(pool, want[i]) == (have - taken)[want[i]];
      if Left(pool, want[i]) > 0 {
        HoldsOneLess(pool, have - taken, want[i]);
        pool := pool[want[i] := pool[want[i]] - 1];
      } else {
        add := add + [want[i]];
      }
      taken := taken + multiset{want[i]};
    }
    assert want[..|want|] == want;
  }

  /** Between iterations: what was taken, what is left, and that it is all still ahead. */
  ghost predicate Draining<T(!new)>(pool: map<T, int>, taken: multiset<T>, left: multiset<T>, surplus: multiset<T>,
      ahead: seq<T>)
  {
    Holds(pool, left) && taken + left == surplus && left <= multiset(ahead)
  }

  lemma DrainOne<T(!new)>(pool: map<T, int>, taken: multiset<T>, left: multiset<T>, surplus: multiset<T>,
      have: seq<T>, i: int)
    requires 0 <= i < |have| && Draining(pool, taken, left, surplus, have[i..])
    ensures var x := have[i];
      if Left(pool, x) > 0
        then Draining(pool[x := pool[x] - 1], taken + multiset{x}, left - multiset{x}, surplus, have[i + 1..])
      else Draining(pool, taken, left, surplus, have[i + 1..])
  {
    var x := have[i];
    DropOneMore(have, i);
    OneLessListed(left, multiset(have[i + 1..]), x);
    assert Left(pool, x) == left[x];
    if Left(pool, x) > 0 {
      HoldsOneLess(pool, left, x);
      MoveOne(left, taken, x);
    }
  }

  /** What the pool still holds, in the order it was listed. */
  method TakeSurplus<T(==, !new)>(have: seq<T>, stock: map<T, int>, ghost surplus: multiset<T>) returns (del: seq<T>)
    requires Holds(stock, surplus) && surplus <= multiset(have)
    ensures multiset(del) == surplus
  {
    del := [];
    var pool := stock;
    ghost var taken, left := multiset{}, surplus;
    for i := 0 to |have|
      invariant multiset(del) == taken
      invariant Draining(pool, taken, left, surplus, have[i..])
    {
      DrainOne(pool, taken, left, surplus, have, i);
      if Left(pool, have[i]) > 0 {
        pool := pool[have[i] := pool[have[i]] - 1];
        del := del + [have[i]];
        taken, left := taken + multiset{have[i]}, left - multiset{have[i]};
      }
    }
    NothingLeft(taken, left, have);
  }

  /** The exact multiset differences both ways. */
  method Diff<T(==, !new)>(want: seq<T>, have: seq<T>) returns (add: seq<T>, del: seq<T>)
    ensures multiset(add) == multiset(want) - multiset(have)
    ensures multiset(del) == multiset(have) - multiset(want)
  {
    var pool := CountItems(have);
    add, pool := TakeWanted(want, pool, multiset(have));
    del := TakeSurplus(have, pool, multiset(have) - multiset(want));
  }
}
