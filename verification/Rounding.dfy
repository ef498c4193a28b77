/**
 Decimal rounding.

 Shares and money are integers counted in millionths (`Micro`), because the
 program rounds both to six decimals after every operation. `Round` is the
 half-even rounding that acts wherever a product or a quotient leaves the grid.
 */
module Rounding {

  type Micro = int

  function Round(x: real): (r: Micro)
    ensures -0.5 <= r as real - x <= 0.5
  {
    var down := x.Floor;
    var rest := x - down as real;
    if rest < 0.5 then down
    else if rest > 0.5 then down + 1
    else if down % 2 == 0 then down
    else down + 1
  }

  /** Whether `x` lies exactly half way between two grid points. */
  predicate IsTie(x: real) {
    x - x.Floor as real == 0.5
  }

  /** `r` is the nearest whole number to `x`, and of two the even one. */
  predicate NearestEven(x: real, r: int) {
    var gap := x - r as real;
    -0.5 <= gap <= 0.5 && (gap == 0.5 || gap == -0.5 ==> r % 2 == 0)
  }

  lemma RoundIsNearest(x: real, r: int)
    ensures Round(x) == r <==> NearestEven(x, r)
  {
  }

  lemma RoundWhole(n: int)
    ensures Round(n as real) == n
  {
    assert (n as real).Floor == n;
  }

  lemma RoundMonotone(x: real, y: real)
    requires x <= y
    ensures Round(x) <= Round(y)
  {
    assert x.Floor <= y.Floor;
  }

  lemma FloorShift(n: int, x: real)
    ensures (n as real + x).Floor == n + x.Floor
  {
  }

  /** Rounding a shifted number: the shift, and a last step that at a tie depends on parity. */
  lemma RoundAt(a: int, d: real)
    ensures Round(a as real + d) == a + d.Floor +
              (if IsTie(d) then (a + d.Floor) % 2 else if d - d.Floor as real > 0.5 then 1 else 0)
  {
    FloorShift(a, d);
  }

  /**
   Taking the same off-grid amount out of two whole numbers keeps their
   difference, unless the amount is a tie and the numbers differ in parity.
   */
  lemma RoundedDifference(a: int, b: int, c: real)
    ensures -1 <= (Round(a as real - c) - Round(b as real - c)) - (a - b) <= 1
    ensures (Round(a as real - c) - Round(b as real - c) != a - b) <==> (IsTie(c) && (a - b) % 2 != 0)
  {
    hide Round, IsTie;
    assert a as real - c == a as real + -c && b as real - c == b as real + -c;
    RoundAt(a, -c);
    RoundAt(b, -c);
    TieNegates(c);
  }

  lemma TieNegates(c: real)
    ensures IsTie(-c) <==> IsTie(c)
  {
    if IsTie(c) {
      assert -c == (-(c.Floor) - 1) as real + 0.5;
      assert (-c).Floor == -(c.Floor) - 1;
    }
    if IsTie(-c) {
      assert c == (-((-c).Floor) - 1) as real + 0.5;
      assert c.Floor == -((-c).Floor) - 1;
    }
  }

  /** Multiplication by a non-negative factor keeps an order of reals. */
  lemma ScaleOrder(k: real, x: real, y: real)
    requires k >= 0.0 && x <= y
    ensures k * x <= k * y
  {
  }
}
