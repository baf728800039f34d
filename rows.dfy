/**
 * Generic operations on the rows of a table or of a fetched list: the
 * filters, finds, reductions and updates that the pages express with
 * `.eq(...)`, `Array.filter`, `Array.find`, `Array.reduce` and `.update(...)`.
 * Every list keeps the order in which the rows are stored.
 */
module Rows {
  import opened Common

  /** `rows.filter(p)` and `.eq(...)`: the rows satisfying p, in order. */
  function Where<T>(rows: seq<T>, p: T -> bool): (r: seq<T>)
    ensures |r| <= |rows|
    ensures forall x :: x in r ==> x in rows && p(x)
    ensures forall x :: x in rows && p(x) ==> x in r
  {
    if rows == [] then []
    else (if p(rows[0]) then [rows[0]] else []) + Where(rows[1..], p)
  }

  /** Filtering with an always-true predicate returns the rows unchanged. */
  lemma {:induction false} WhereAll<T>(rows: seq<T>, p: T -> bool)
    requires forall x :: x in rows ==> p(x)
    ensures Where(rows, p) == rows
  {
    if rows != [] {
      WhereAll(rows[1..], p);
    }
  }

  /** Filtering with a predicate no row satisfies returns nothing. */
  lemma {:induction false} WhereNone<T>(rows: seq<T>, p: T -> bool)
    requires forall x :: x in rows ==> !p(x)
    ensures Where(rows, p) == []
  {
    if rows != [] {
      assert rows[0] in rows;
      WhereNone(rows[1..], p);
    }
  }

  /** `.maybeSingle()` / `.single()`: the row when exactly one matched, otherwise no data. */
  function MaybeSingle<T>(rows: seq<T>): (r: Option<T>)
    ensures r.Some? <==> |rows| == 1
    ensures r.Some? ==> r.value == rows[0]
  {
    if |rows| == 1 then Some(rows[0]) else None
  }

  /** Index of the first row satisfying p (`findIndex`), if any. */
  function FirstIndex<T>(rows: seq<T>, p: T -> bool): (r: Option<nat>)
    ensures r.Some? ==> r.value < |rows| && p(rows[r.value])
    ensures r.Some? ==> forall j :: 0 <= j < r.value ==> !p(rows[j])
    ensures r.None? ==> forall j :: 0 <= j < |rows| ==> !p(rows[j])
  {
    if rows == [] then None
    else if p(rows[0]) then Some(0)
    else
      var k := FirstIndex(rows[1..], p);
      if k.Some? then Some(k.value + 1) else None
  }

  /** `rows.find(p)`: the first row satisfying p. */
  function Find<T>(rows: seq<T>, p: T -> bool): Option<T> {
    var k := FirstIndex(rows, p);
    if k.Some? then Some(rows[k.value]) else None
  }

  /** `rows.some(p)`. */
  predicate Any<T>(rows: seq<T>, p: T -> bool) {
    exists i | 0 <= i < |rows| :: p(rows[i])
  }

  /** `rows.reduce((sum, x) => sum + f(x), 0)`, folded from the left. */
  function SumBy<T>(rows: seq<T>, f: T -> int): int {
    if rows == [] then 0 else SumBy(rows[..|rows| - 1], f) + f(rows[|rows| - 1])
  }

  lemma {:induction false} SumByAppend<T>(a: seq<T>, b: seq<T>, f: T -> int)
    ensures SumBy(a + b, f) == SumBy(a, f) + SumBy(b, f)
    decreases |b|
  {
    if b != [] {
      assert (a + b)[..|a + b| - 1] == a + b[..|b| - 1];
      SumByAppend(a, b[..|b| - 1], f);
    } else {
      assert a + b == a;
    }
  }

  /** A sum of non-negative terms is non-negative. */
  lemma {:induction false} SumByNonNegative<T>(rows: seq<T>, f: T -> int)
    requires forall x :: x in rows ==> f(x) >= 0
    ensures SumBy(rows, f) >= 0
  {
    if rows != [] {
      assert rows[|rows| - 1] in rows;
      forall x | x in rows[..|rows| - 1] ensures f(x) >= 0 {
        assert x in rows;
      }
      SumByNonNegative(rows[..|rows| - 1], f);
    }
  }

  /** A sum of zero terms is zero. */
  lemma {:induction false} SumByZero<T>(rows: seq<T>, f: T -> int)
    requires forall i :: 0 <= i < |rows| ==> f(rows[i]) == 0
    ensures SumBy(rows, f) == 0
  {
    if rows != [] {
      SumByZero(rows[..|rows| - 1], f);
    }
  }

  /** Sums of terms that agree on every row are equal. */
  lemma {:induction false} SumByCongruent<T>(rows: seq<T>, f: T -> int, g: T -> int)
    requires forall i :: 0 <= i < |rows| ==> f(rows[i]) == g(rows[i])
    ensures SumBy(rows, f) == SumBy(rows, g)
  {
    if rows != [] {
      SumByCongruent(rows[..|rows| - 1], f, g);
    }
  }

  /** `rows.map(f)`: f of every row, in order. */
  function MapRows<A, B>(rows: seq<A>, f: A -> B): (r: seq<B>)
    ensures |r| == |rows|
    ensures forall i :: 0 <= i < |rows| ==> r[i] == f(rows[i])
  {
    if rows == [] then [] else MapRows(rows[..|rows| - 1], f) + [f(rows[|rows| - 1])]
  }

  /** `.update(g).eq(...)`: every row satisfying p is replaced by g of itself. */
  function UpdateWhere<T>(rows: seq<T>, p: T -> bool, g: T -> T): (r: seq<T>)
    ensures |r| == |rows|
    ensures forall i :: 0 <= i < |rows| ==> r[i] == if p(rows[i]) then g(rows[i]) else rows[i]
  {
    if rows == [] then []
    else UpdateWhere(rows[..|rows| - 1], p, g) + [if p(rows[|rows| - 1]) then g(rows[|rows| - 1]) else rows[|rows| - 1]]
  }

  /** Updating rows that nothing matches changes nothing. */
  lemma UpdateWhereNoMatch<T>(rows: seq<T>, p: T -> bool, g: T -> T)
    requires Where(rows, p) == []
    ensures UpdateWhere(rows, p, g) == rows
  {
    forall i | 0 <= i < |rows| ensures !p(rows[i]) {
      assert rows[i] in rows;
    }
  }

  /**
   * When exactly one row w matches, an update shifts any sum over the rows
   * by exactly what the update changed in w.
   */
  lemma {:induction false} SumUpdateSingle<T>(rows: seq<T>, p: T -> bool, g: T -> T, f: T -> int)
    requires |Where(rows, p)| == 1
    ensures SumBy(UpdateWhere(rows, p, g), f) == SumBy(rows, f) + f(g(Where(rows, p)[0])) - f(Where(rows, p)[0])
    decreases |rows|
  {
    var w := Where(rows, p)[0];
    var n := |rows|;
    var init, last := rows[..n - 1], rows[n - 1];
    assert rows == init + [last];
    WhereAppend(init, [last], p);
    var u := UpdateWhere(rows, p, g);
    assert u[..n - 1] == UpdateWhere(init, p, g);
    if p(last) {
      assert Where([last], p) == [last];
      assert Where(init, p) == [];
      UpdateWhereNoMatch(init, p, g);
    } else {
      assert Where([last], p) == [];
      assert Where(init, p) == Where(rows, p);
      SumUpdateSingle(init, p, g, f);
    }
  }

  /** Filtering distributes over concatenation, so it keeps the rows' order. */
  lemma {:induction false} WhereAppend<T>(a: seq<T>, b: seq<T>, p: T -> bool)
    ensures Where(a + b, p) == Where(a, p) + Where(b, p)
  {
    if a != [] {
      assert (a + b)[1..] == a[1..] + b;
      WhereAppend(a[1..], b, p);
    } else {
      assert a + b == b;
    }
  }

  /** `[...new Set(xs)]`: the distinct values of xs in order of first occurrence. */
  function Distinct<T(==)>(xs: seq<T>): (r: seq<T>)
    ensures forall x :: x in r ==> x in xs
    ensures forall x :: x in xs ==> x in r
    ensures forall i, j :: 0 <= i < j < |r| ==> r[i] != r[j]
  {
    if xs == [] then []
    else
      var d := Distinct(xs[..|xs| - 1]);
      assert xs == xs[..|xs| - 1] + [xs[|xs| - 1]];
      if xs[|xs| - 1] in d then d else d + [xs[|xs| - 1]]
  }

  /** Position of the first occurrence of x in xs. */
  function IndexOf<T(==)>(xs: seq<T>, x: T): (k: nat)
    requires x in xs
    ensures k < |xs| && xs[k] == x && x !in xs[..k]
  {
    if xs[0] == x then 0 else 1 + IndexOf(xs[1..], x)
  }

  lemma {:induction false} IndexOfAppend<T>(xs: seq<T>, y: T, x: T)
    requires x in xs
    ensures IndexOf(xs + [y], x) == IndexOf(xs, x)
  {
    if xs[0] != x {
      assert (xs + [y])[1..] == xs[1..] + [y];
      IndexOfAppend(xs[1..], y, x);
    }
  }

  /** Distinct lists values in the order in which they are first seen in xs. */
  lemma {:induction false} DistinctFirstSeenOrder<T>(xs: seq<T>)
    ensures forall i, j :: 0 <= i < j < |Distinct(xs)| ==>
      IndexOf(xs, Distinct(xs)[i]) < IndexOf(xs, Distinct(xs)[j])
  {
    if xs != [] {
      var init, last := xs[..|xs| - 1], xs[|xs| - 1];
      assert xs == init + [last];
      DistinctFirstSeenOrder(init);
      var d := Distinct(init);
      forall x | x in d ensures IndexOf(xs, x) == IndexOf(init, x) {
        IndexOfAppend(init, last, x);
      }
      if last !in d {
        assert last !in init;
        forall x | x in d ensures IndexOf(xs, x) < IndexOf(xs, last) {
          assert IndexOf(xs, last) == |init| by {
            assert xs[|init|] == last;
            assert last !in xs[..|init|];
          }
        }
      }
    }
  }
}
