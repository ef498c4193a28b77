/**
 Sums over insertion-ordered collections.

 `Sum` folds from the left, as the accumulating loops of the program do.
 Every bookkeeping argument of this project is one use of `SumChange`: an event
 touches one record, so a total moves by what that record contributes.
 */
module Seqs {

  datatype Option<+T> = None | Some(value: T)

  function Max(a: int, b: int): int { if a >= b then a else b }

  function Min(a: int, b: int): int { if a <= b then a else b }

  function Sum<T>(xs: seq<T>, f: T -> int): int {
    if xs == [] then 0 else Sum(xs[..|xs| - 1], f) + f(xs[|xs| - 1])
  }

  lemma SumAppend<T>(xs: seq<T>, x: T, f: T -> int)
    ensures Sum(xs + [x], f) == Sum(xs, f) + f(x)
  {
    assert (xs + [x])[..|xs|] == xs;
  }

  /** What one more step of an accumulating loop adds. */
  lemma SumNext<T>(xs: seq<T>, i: nat, f: T -> int)
    requires i < |xs|
    ensures Sum(xs[..i + 1], f) == Sum(xs[..i], f) + f(xs[i])
  {
    assert xs[..i + 1] == xs[..i] + [xs[i]];
    SumAppend(xs[..i], xs[i], f);
  }

  lemma SumOne<T>(x: T, f: T -> int)
    ensures Sum([x], f) == f(x)
  {
    SumAppend([], x, f);
    assert [] + [x] == [x];
  }

  lemma SumTwo<T>(x: T, y: T, f: T -> int)
    ensures Sum([x, y], f) == f(x) + f(y)
  {
    SumOne(x, f);
    SumAppend([x], y, f);
    assert [x] + [y] == [x, y];
  }

  lemma SumThree<T>(x: T, y: T, z: T, f: T -> int)
    ensures Sum([x, y, z], f) == f(x) + f(y) + f(z)
  {
    SumTwo(x, y, f);
    SumAppend([x, y], z, f);
    assert [x, y] + [z] == [x, y, z];
  }

  lemma SumUpToThree<T>(xs: seq<T>, f: T -> int)
    requires 1 <= |xs| <= 3
    ensures Sum(xs, f) == f(xs[0]) + (if |xs| > 1 then f(xs[1]) else 0) + (if |xs| > 2 then f(xs[2]) else 0)
  {
    if |xs| == 1 {
      assert xs == [xs[0]];
      SumOne(xs[0], f);
    } else if |xs| == 2 {
      assert xs == [xs[0], xs[1]];
      SumTwo(xs[0], xs[1], f);
    } else {
      assert xs == [xs[0], xs[1], xs[2]];
      SumThree(xs[0], xs[1], xs[2], f);
    }
  }

  /** Sums agree when the summands agree position by position. */
  lemma {:induction false} SumSame<S, T>(xs: seq<S>, ys: seq<T>, f: S -> int, g: T -> int)
    requires |xs| == |ys|
    requires forall j :: 0 <= j < |xs| ==> f(xs[j]) == g(ys[j])
    ensures Sum(xs, f) == Sum(ys, g)
  {
    if xs != [] {
      SumSame(xs[..|xs| - 1], ys[..|ys| - 1], f, g);
    }
  }

  /** Changing the record at position `i` moves the sum by that record's change. */
  lemma {:induction false} SumChange<T>(xs: seq<T>, ys: seq<T>, i: nat, f: T -> int, g: T -> int)
    requires |xs| == |ys| && i < |xs|
    requires forall j :: 0 <= j < |xs| && j != i ==> f(xs[j]) == g(ys[j])
    ensures Sum(ys, g) - Sum(xs, f) == g(ys[i]) - f(xs[i])
  {
    var n := |xs| - 1;
    if i == n {
      SumSame(xs[..n], ys[..n], f, g);
    } else {
      SumChange(xs[..n], ys[..n], i, f, g);
    }
  }

  /** The same for two records. */
  lemma {:induction false} SumChangeTwo<T>(xs: seq<T>, ys: seq<T>, i: nat, k: nat, f: T -> int, g: T -> int)
    requires |xs| == |ys| && i < |xs| && k < |xs| && i != k
    requires forall j :: 0 <= j < |xs| && j != i && j != k ==> f(xs[j]) == g(ys[j])
    ensures Sum(ys, g) - Sum(xs, f) == (g(ys[i]) - f(xs[i])) + (g(ys[k]) - f(xs[k]))
  {
    var n := |xs| - 1;
    if i == n {
      SumChange(xs[..n], ys[..n], k, f, g);
    } else if k == n {
      SumChange(xs[..n], ys[..n], i, f, g);
    } else {
      SumChangeTwo(xs[..n], ys[..n], i, k, f, g);
    }
  }

  lemma {:induction false} SumMonotone<T>(xs: seq<T>, ys: seq<T>, f: T -> int, g: T -> int)
    requires |xs| == |ys|
    requires forall j :: 0 <= j < |xs| ==> f(xs[j]) >= g(ys[j])
    ensures Sum(xs, f) >= Sum(ys, g)
  {
    if xs != [] {
      SumMonotone(xs[..|xs| - 1], ys[..|ys| - 1], f, g);
    }
  }

  lemma {:induction false} SumPlus<T>(xs: seq<T>, f: T -> int, g: T -> int, h: T -> int)
    requires forall x :: x in xs ==> h(x) == f(x) + g(x)
    ensures Sum(xs, h) == Sum(xs, f) + Sum(xs, g)
  {
    if xs != [] {
      SumPlus(xs[..|xs| - 1], f, g, h);
    }
  }

  /** A change of every term by a multiple of `c` changes the sum by that multiple of `c`. */
  lemma {:induction false} SumShift<T>(xs: seq<T>, f: T -> int, g: T -> int, h: T -> int, c: int)
    requires forall x :: x in xs ==> g(x) == f(x) + h(x) * c
    ensures Sum(xs, g) == Sum(xs, f) + Sum(xs, h) * c
  {
    if xs != [] {
      var n := |xs| - 1;
      SumShift(xs[..n], f, g, h, c);
      assert (Sum(xs[..n], h) + h(xs[n])) * c == Sum(xs[..n], h) * c + h(xs[n]) * c;
    }
  }

  lemma {:induction false} SumNonNegative<T>(xs: seq<T>, f: T -> int)
    requires forall x :: x in xs ==> f(x) >= 0
    ensures Sum(xs, f) >= 0
  {
    if xs != [] {
      SumNonNegative(xs[..|xs| - 1], f);
    }
  }

  /** When every term is 0 or at least `gap`, a sum below `gap` is 0. */
  lemma {:induction false} SumBelowGap<T>(xs: seq<T>, f: T -> int, gap: int)
    requires forall x :: x in xs ==> f(x) == 0 || f(x) >= gap > 0
    requires Sum(xs, f) < gap
    ensures Sum(xs, f) == 0 && forall x :: x in xs ==> f(x) == 0
  {
    if xs != [] {
      var n := |xs| - 1;
      SumNonNegative(xs[..n], f);
      assert f(xs[n]) == 0;
      SumBelowGap(xs[..n], f, gap);
      assert xs == xs[..n] + [xs[n]];
    }
  }
}
