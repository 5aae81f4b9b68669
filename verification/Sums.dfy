/** Sums over tables. */
module Sums {

  function Sum<T>(rows: seq<T>, f: T -> int): int {
    if |rows| == 0 then 0 else Sum(rows[..|rows| - 1], f) + f(rows[|rows| - 1])
  }

  lemma {:induction false} SumAppend<T>(rows: seq<T>, r: T, f: T -> int)
    ensures Sum(rows + [r], f) == Sum(rows, f) + f(r)
  {
    assert (rows + [r])[..|rows|] == rows;
  }

  lemma {:induction false} SumUpdate<T>(rows: seq<T>, i: nat, r: T, f: T -> int)
    requires i < |rows|
    ensures Sum(rows[i := r], f) == Sum(rows, f) - f(rows[i]) + f(r)
  {
    var n := |rows| - 1;
    if i == n {
      assert rows[i := r][..n] == rows[..n];
    } else {
      assert rows[i := r][..n] == rows[..n][i := r];
      SumUpdate(rows[..n], i, r, f);
    }
  }

  /** Row by row, `g` is what `f` loses between two versions of a table. */
  lemma {:induction false} SumShift<T>(a: seq<T>, b: seq<T>, f: T -> int, g: T -> int)
    requires |a| == |b|
    requires forall i :: 0 <= i < |a| ==> f(b[i]) == f(a[i]) - g(a[i])
    ensures Sum(b, f) == Sum(a, f) - Sum(a, g)
  {
    if |a| > 0 {
      var n := |a| - 1;
      assert forall i :: 0 <= i < n ==> a[..n][i] == a[i] && b[..n][i] == b[i];
      SumShift(a[..n], b[..n], f, g);
    }
  }

  lemma {:induction false} SumZero<T>(rows: seq<T>, f: T -> int)
    requires forall i :: 0 <= i < |rows| ==> f(rows[i]) == 0
    ensures Sum(rows, f) == 0
  {
    if |rows| > 0 {
      var n := |rows| - 1;
      assert forall i :: 0 <= i < n ==> rows[..n][i] == rows[i];
      SumZero(rows[..n], f);
    }
  }

  lemma {:induction false} SumNonNegative<T>(rows: seq<T>, f: T -> int)
    requires forall i :: 0 <= i < |rows| ==> f(rows[i]) >= 0
    ensures Sum(rows, f) >= 0
  {
    if |rows| > 0 {
      var n := |rows| - 1;
      assert forall i :: 0 <= i < n ==> rows[..n][i] == rows[i];
      SumNonNegative(rows[..n], f);
    }
  }

  lemma {:induction false} SumDifference<T>(rows: seq<T>, f: T -> int, g: T -> int, h: T -> int)
    requires forall i :: 0 <= i < |rows| ==> h(rows[i]) == f(rows[i]) - g(rows[i])
    ensures Sum(rows, h) == Sum(rows, f) - Sum(rows, g)
  {
    if |rows| > 0 {
      var n := |rows| - 1;
      assert forall i :: 0 <= i < n ==> rows[..n][i] == rows[i];
      SumDifference(rows[..n], f, g, h);
    }
  }

  lemma {:induction false} SumSame<T>(rows: seq<T>, f: T -> int, g: T -> int)
    requires forall i :: 0 <= i < |rows| ==> f(rows[i]) == g(rows[i])
    ensures Sum(rows, f) == Sum(rows, g)
  {
    if |rows| > 0 {
      var n := |rows| - 1;
      assert forall i :: 0 <= i < n ==> rows[..n][i] == rows[i];
      SumSame(rows[..n], f, g);
    }
  }

  function Identity(x: int): int {
    x
  }
}
