/** `Math.round(part / whole * 100)`, the percentage every progress bar of the
    application shows, in exact integer arithmetic. */
module Percent {

  /** Round half up of 100 * num / den. The contract says that the result is
      the integer nearest to 100 * num / den, a tie going up:
      r - 1/2 <= 100 * num / den < r + 1/2. */
  function RoundPercent(num: nat, den: nat): (r: nat)
    requires den > 0
    ensures den * (2 * r) <= 200 * num + den < den * (2 * r + 2)
  {
    var q := (200 * num + den) / (2 * den);
    DivBounds(200 * num + den, 2 * den);
    q
  }

  lemma DivBounds(a: nat, b: nat)
    requires b > 0
    ensures b * (a / b) <= a < b * (a / b + 1)
  {
  }

  /** Multiplying by the same factor keeps the order. */
  lemma {:induction false} MulMonotone(k: nat, a: nat, b: nat)
    requires a <= b
    ensures k * a <= k * b
    decreases b - a
  {
    if a < b {
      MulMonotone(k, a, b - 1);
      assert k * b == k * (b - 1) + k;
    }
  }

  /** A part never exceeds 100 percent of its whole. */
  lemma RoundPercentAtMostHundred(num: nat, den: nat)
    requires den > 0 && num <= den
    ensures RoundPercent(num, den) <= 100
  {
    NearestAtMostHundred(num, den, RoundPercent(num, den));
  }

  /** The rounding bounds, stated for any candidate `r`, so that the steps
      below never see the division. */
  lemma NearestAtMostHundred(num: nat, den: nat, r: nat)
    requires den > 0 && num <= den && den * (2 * r) <= 200 * num + den
    ensures r <= 100
  {
    if r > 100 {
      MulMonotone(den, 202, 2 * r);
      assert false;
    }
  }

  /** More closed items never lower the percentage. */
  lemma RoundPercentMonotone(n1: nat, n2: nat, den: nat)
    requires den > 0 && n1 <= n2
    ensures RoundPercent(n1, den) <= RoundPercent(n2, den)
  {
    NearestMonotone(n1, n2, den, RoundPercent(n1, den), RoundPercent(n2, den));
  }

  lemma NearestMonotone(n1: nat, n2: nat, den: nat, r1: nat, r2: nat)
    requires den > 0 && n1 <= n2
    requires den * (2 * r1) <= 200 * n1 + den
    requires 200 * n2 + den < den * (2 * r2 + 2)
    ensures r1 <= r2
  {
    if r1 > r2 {
      MulMonotone(den, 2 * r2 + 2, 2 * r1);
      assert false;
    }
  }

  /** Nothing done is 0 percent and everything done is 100 percent. */
  lemma RoundPercentEnds(den: nat)
    requires den > 0
    ensures RoundPercent(0, den) == 0
    ensures RoundPercent(den, den) == 100
  {
    NearestZero(den, RoundPercent(0, den));
    NearestHundred(den, RoundPercent(den, den));
  }

  lemma NearestZero(den: nat, r: nat)
    requires den > 0 && den * (2 * r) <= den
    ensures r == 0
  {
    if r > 0 {
      MulMonotone(den, 2, 2 * r);
      assert false;
    }
  }

  lemma NearestHundred(den: nat, r: nat)
    requires den > 0 && den * (2 * r) <= 200 * den + den < den * (2 * r + 2)
    ensures r == 100
  {
    NearestAtMostHundred(den, den, r);
    if r < 100 {
      MulMonotone(den, 2 * r + 2, 201);
      assert false;
    }
  }

  /** Half of an even whole is exactly 50 percent. */
  lemma RoundPercentHalf(k: nat)
    requires k > 0
    ensures RoundPercent(k, 2 * k) == 50
  {
    NearestHalf(k, RoundPercent(k, 2 * k));
  }

  lemma NearestHalf(k: nat, r: nat)
    requires k > 0 && (2 * k) * (2 * r) <= 200 * k + 2 * k < (2 * k) * (2 * r + 2)
    ensures r == 50
  {
    if r > 50 {
      MulMonotone(2 * k, 102, 2 * r);
      assert false;
    } else if r < 50 {
      MulMonotone(2 * k, 2 * r + 2, 100);
      assert false;
    }
  }
}
