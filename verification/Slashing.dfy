/** What repeated negligence slashes leave of a stake. */
module Slashing {
  import opened Types

  /** A stake after `k` slashes of `sigma` each, every one rounded down. */
  ghost function Erode(sigma: Perbill, stake: nat, k: nat): nat {
    if k == 0 then stake
    else
      var before := Erode(sigma, stake, k - 1);
      SatSub(before, MulFloor(sigma, before))
  }

  ghost function Pow(b: nat, k: nat): nat { if k == 0 then 1 else b * Pow(b, k - 1) }

  ghost function RoundingUpTo(sigma: Perbill, k: nat, n: nat): nat
    requires n <= k
  {
    if n == 0 then 0
    else RoundingUpTo(sigma, k, n - 1) + Pow(ACCURACY - sigma, n - 1) * Pow(ACCURACY, k - (n - 1))
  }

  /** `(A-s)^i * A^(k-i)` summed over `i < k`: the rounding that `k` slashes can leave behind. */
  ghost function Rounding(sigma: Perbill, k: nat): nat { RoundingUpTo(sigma, k, k) }

  /** A share is the largest whole number of units that does not exceed it. */
  lemma FloorShare(parts: Perbill, x: nat)
    ensures var share := MulFloor(parts, x);
      share * 1_000_000_000 <= parts * x < (share + 1) * 1_000_000_000
  {
  }

  lemma FloorBounds(sigma: Perbill, x: nat)
    ensures var left := SatSub(x, MulFloor(sigma, x));
      && left + MulFloor(sigma, x) == x
      && (ACCURACY - sigma) * x <= left * ACCURACY < (ACCURACY - sigma) * x + ACCURACY
  {
    assert sigma * x <= ACCURACY * x;
    assert (ACCURACY - sigma) * x == ACCURACY * x - sigma * x;
  }

  lemma ScaleTerm(c: nat, u: nat, v: nat, w: nat)
    ensures c * (w + u * v) == c * w + c * u * v
  {
  }

  /** One more slash scales every earlier rounding error by `A-s` and adds one of at most `A^(k+1)`. */
  lemma {:induction false} RoundingScales(sigma: Perbill, k: nat, n: nat)
    requires n <= k
    ensures RoundingUpTo(sigma, k + 1, n + 1)
         == (ACCURACY - sigma) * RoundingUpTo(sigma, k, n) + Pow(ACCURACY, k + 1)
  {
    if n > 0 {
      RoundingScales(sigma, k, n - 1);
      var c := ACCURACY - sigma;
      var u, v := Pow(c, n - 1), Pow(ACCURACY, k - (n - 1));
      assert Pow(c, n) == c * u;
      ScaleTerm(c, u, v, RoundingUpTo(sigma, k, n - 1));
    } else {
      assert RoundingUpTo(sigma, k + 1, 0) == 0;
    }
  }

  lemma MulOrder(c: nat, x: nat, y: nat)
    requires x <= y
    ensures c * x <= c * y
  {
  }

  lemma MulStrict(c: nat, x: nat, y: nat)
    requires x < y && 0 < c
    ensures c * x < c * y
  {
  }

  lemma {:induction false} PowPositive(b: nat, k: nat)
    requires 0 < b
    ensures 0 < Pow(b, k)
  {
    if k > 0 {
      PowPositive(b, k - 1);
      MulStrict(b, 0, Pow(b, k - 1));
    }
  }

  lemma StepBounds(c: nat, x: nat, y: nat, a: nat, stake: nat, d: nat, e: nat)
    requires c * x <= y * ACCURACY < c * x + ACCURACY && 0 < a
    requires stake * d <= x * a <= stake * d + e
    ensures stake * (c * d) <= y * (ACCURACY * a) < stake * (c * d) + (c * e + ACCURACY * a)
  {
    calc {
      stake * (c * d);
      c * (stake * d);
    <= { MulOrder(c, stake * d, x * a); }
      c * (x * a);
      a * (c * x);
    <= { MulOrder(a, c * x, y * ACCURACY); }
      a * (y * ACCURACY);
      y * (ACCURACY * a);
    }
    calc {
      y * (ACCURACY * a);
      a * (y * ACCURACY);
    <  { MulStrict(a, y * ACCURACY, c * x + ACCURACY); }
      a * (c * x + ACCURACY);
      c * (x * a) + ACCURACY * a;
    <= { MulOrder(c, x * a, stake * d + e); }
      c * (stake * d + e) + ACCURACY * a;
      stake * (c * d) + (c * e + ACCURACY * a);
    }
  }

  /** The stake stays between the exact share and, once slashed, less than that share plus the accumulated rounding. */
  lemma {:induction false} ErosionBounds(sigma: Perbill, stake: nat, k: nat)
    ensures stake * Pow(ACCURACY - sigma, k) <= Erode(sigma, stake, k) * Pow(ACCURACY, k)
    ensures Erode(sigma, stake, k) * Pow(ACCURACY, k) <= stake * Pow(ACCURACY - sigma, k) + Rounding(sigma, k)
    ensures 0 < k ==>
      Erode(sigma, stake, k) * Pow(ACCURACY, k) < stake * Pow(ACCURACY - sigma, k) + Rounding(sigma, k)
  {
    if k > 0 {
      PowPositive(ACCURACY, k - 1);
      ErosionBounds(sigma, stake, k - 1);
      FloorBounds(sigma, Erode(sigma, stake, k - 1));
      RoundingScales(sigma, k - 1, k - 1);
      StepBounds(ACCURACY - sigma, Erode(sigma, stake, k - 1), Erode(sigma, stake, k),
                 Pow(ACCURACY, k - 1), stake, Pow(ACCURACY - sigma, k - 1), Rounding(sigma, k - 1));
    }
  }

  lemma PartialShare(sigma: Perbill, x: nat)
    requires sigma < ACCURACY && 0 < x
    ensures MulFloor(sigma, x) < x
  {
    var product := sigma * x;
    MulOrder(x, sigma, ACCURACY - 1);
    assert product <= (ACCURACY - 1) * x;
    assert product / ACCURACY < x;
  }

  /** A share below the whole never takes everything. */
  lemma {:induction false} ErosionNeverEmpties(sigma: Perbill, stake: nat, k: nat)
    requires sigma < ACCURACY && 0 < stake
    ensures 0 < Erode(sigma, stake, k)
  {
    if k > 0 {
      ErosionNeverEmpties(sigma, stake, k - 1);
      PartialShare(sigma, Erode(sigma, stake, k - 1));
    }
  }

  lemma {:induction false} ErosionShrinks(sigma: Perbill, stake: nat, k: nat)
    ensures Erode(sigma, stake, k) <= stake
  {
    if k > 0 {
      ErosionShrinks(sigma, stake, k - 1);
    }
  }
}
