/** Sums over the rows of a table. Every conservation argument of the project is
    stated with `Sum` and moved across row updates by the lemmas of this module. */
module Sums {

  function Sum<T>(rows: seq<T>, f: T -> int): int
  {
    if rows == [] then 0 else f(rows[0]) + Sum(rows[1..], f)
  }

  lemma {:induction false} SumConcat<T>(a: seq<T>, b: seq<T>, f: T -> int)
    ensures Sum(a + b, f) == Sum(a, f) + Sum(b, f)
  {
    if a == [] {
      assert a + b == b;
    } else {
      assert (a + b)[1..] == a[1..] + b;
      SumConcat(a[1..], b, f);
    }
  }

  lemma SumAppend<T>(rows: seq<T>, x: T, f: T -> int)
    ensures Sum(rows + [x], f) == Sum(rows, f) + f(x)
  {
    SumConcat(rows, [x], f);
    assert Sum([x], f) == f(x) + Sum([x][1..], f);
  }

  lemma {:induction false} SumUpdate<T>(rows: seq<T>, i: nat, x: T, f: T -> int)
    requires i < |rows|
    ensures Sum(rows[i := x], f) == Sum(rows, f) - f(rows[i]) + f(x)
  {
    if i == 0 {
      assert rows[0 := x][1..] == rows[1..];
    } else {
      assert rows[i := x][1..] == rows[1..][i - 1 := x];
      SumUpdate(rows[1..], i - 1, x, f);
    }
  }

  /** A sum split around one row. */
  lemma SumSplit<T>(rows: seq<T>, i: nat, f: T -> int)
    requires i < |rows|
    ensures Sum(rows[..i], f) + Sum(rows[i + 1..], f) + f(rows[i]) == Sum(rows, f)
  {
    assert rows == rows[..i] + ([rows[i]] + rows[i + 1..]);
    SumConcat(rows[..i], [rows[i]] + rows[i + 1..], f);
    SumConcat([rows[i]], rows[i + 1..], f);
    assert Sum([rows[i]], f) == f(rows[i]) + Sum([rows[i]][1..], f);
  }

  lemma {:induction false} SumNonNegative<T>(rows: seq<T>, f: T -> int)
    requires forall i :: 0 <= i < |rows| ==> 0 <= f(rows[i])
    ensures 0 <= Sum(rows, f)
  {
    if rows != [] {
      SumNonNegative(rows[1..], f);
    }
  }

  lemma {:induction false} SumAtLeast<T>(rows: seq<T>, i: nat, f: T -> int)
    requires i < |rows|
    requires forall k :: 0 <= k < |rows| ==> 0 <= f(rows[k])
    ensures f(rows[i]) <= Sum(rows, f)
  {
    if i == 0 {
      SumNonNegative(rows[1..], f);
    } else {
      SumAtLeast(rows[1..], i - 1, f);
    }
  }

  lemma {:induction false} SumMonotone<T, U>(a: seq<T>, b: seq<U>, f: T -> int, g: U -> int)
    requires |a| == |b|
    requires forall i :: 0 <= i < |a| ==> f(a[i]) <= g(b[i])
    ensures Sum(a, f) <= Sum(b, g)
  {
    if a != [] {
      assert forall i :: 0 <= i < |a[1..]| ==> f(a[1..][i]) <= g(b[1..][i]) by {
        forall i | 0 <= i < |a[1..]| ensures f(a[1..][i]) <= g(b[1..][i]) {
          assert f(a[i + 1]) <= g(b[i + 1]);
        }
      }
      SumMonotone(a[1..], b[1..], f, g);
    }
  }

  lemma {:induction false} SumZero<T>(rows: seq<T>, f: T -> int)
    requires forall i :: 0 <= i < |rows| ==> 0 <= f(rows[i])
    ensures Sum(rows, f) == 0 <==> forall i :: 0 <= i < |rows| ==> f(rows[i]) == 0
  {
    if Sum(rows, f) == 0 {
      forall i | 0 <= i < |rows| ensures f(rows[i]) == 0 {
        SumAtLeast(rows, i, f);
      }
    } else if forall i :: 0 <= i < |rows| ==> f(rows[i]) == 0 {
      SumNonNegative(rows, f);
      SumAllZero(rows, f);
      assert false;
    }
  }

  lemma {:induction false} SumAllZero<T>(rows: seq<T>, f: T -> int)
    requires forall i :: 0 <= i < |rows| ==> f(rows[i]) == 0
    ensures Sum(rows, f) == 0
  {
    if rows != [] {
      SumAllZero(rows[1..], f);
    }
  }

  lemma {:induction false} SumOfSums<T>(rows: seq<T>, f: T -> int, g: T -> int, h: T -> int)
    requires forall i :: 0 <= i < |rows| ==> h(rows[i]) == f(rows[i]) + g(rows[i])
    ensures Sum(rows, h) == Sum(rows, f) + Sum(rows, g)
  {
    if rows != [] {
      SumOfSums(rows[1..], f, g, h);
    }
  }

  lemma {:induction false} SumAtMost<T>(rows: seq<T>, f: T -> int, bound: int)
    requires forall i :: 0 <= i < |rows| ==> f(rows[i]) <= bound
    ensures Sum(rows, f) <= |rows| * bound
  {
    if rows != [] {
      SumAtMost(rows[1..], f, bound);
      assert |rows| * bound == bound + |rows[1..]| * bound;
    }
  }
}
