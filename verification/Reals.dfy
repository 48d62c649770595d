/** Exact arithmetic shared by budgets and scorecards. */
module Reals {

  function Abs(x: real): real { if x < 0.0 then -x else x }

  lemma Product(x: real, y: real)
    requires x >= 0.0 && y >= 0.0
    ensures x * y >= 0.0
  {
  }

  lemma ProductKeepsOrder(k: real, x: real, y: real)
    requires k >= 0.0 && x <= y
    ensures k * x <= k * y
  {
    Product(k, y - x);
    assert k * (y - x) == k * y - k * x;
  }

  lemma ProductKeepsStrictOrder(k: real, x: real, y: real)
    requires k > 0.0 && x < y
    ensures k * x < k * y
  {
    assert k * (y - x) == k * y - k * x;
  }

  lemma Square(x: real)
    ensures x * x >= 0.0
  {
    if x >= 0.0 {
      Product(x, x);
    } else {
      Product(-x, -x);
      assert (-x) * (-x) == x * x;
    }
  }

  /** Squares of numbers within a distance of zero are within its square. */
  lemma SquareWithin(x: real, r: real)
    requires -r <= x <= r
    ensures x * x <= r * r
  {
    Product(r - x, r + x);
    assert (r - x) * (r + x) == r * r - x * x;
  }

  lemma SquareKeepsStrictOrder(x: real, y: real)
    requires 0.0 <= x < y
    ensures x * x < y * y
  {
    ProductKeepsStrictOrder(y + x, 0.0, y - x);
    assert (y + x) * (y - x) == y * y - x * x;
  }

  lemma RootWithin(x: real, r: real)
    requires r >= 0.0 && x * x <= r * r
    ensures x <= r
  {
    if r < x { SquareKeepsStrictOrder(r, x); }
  }
}
