/** Locked collateral and withdrawal fees: basis-point arithmetic in 128 bits, and how its rounding adds up. */
module PositionMath {
  import opened Base

  const BASIS_POINTS: int := 10_000
  const MAX_REASONABLE_AMOUNT: int := I128_MAX / 2

  // ---- 128-bit arithmetic ----

  function Saturate(x: int): (r: int)
    ensures -I128_MAX - 1 <= r <= I128_MAX
  {
    if x > I128_MAX then I128_MAX else if x < -I128_MAX - 1 then -I128_MAX - 1 else x
  }

  /** Division truncates toward zero. */
  function TruncatedDiv(x: int, d: int): int
    requires d > 0
  {
    if x >= 0 then x / d else -((-x) / d)
  }

  predicate ValidPrice(price: int) {
    0 <= price <= BASIS_POINTS
  }

  // ---- Locked collateral ----

  function ScaleByBps(amount: int, priceBps: int): int {
    TruncatedDiv(Saturate(amount * priceBps), BASIS_POINTS)
  }

  function CalculateLockedCollateral(yes: int, no: int, price: int): int {
    if yes == no then 0
    else if yes > no then ScaleByBps(yes - no, price)
    else ScaleByBps(no - yes, BASIS_POINTS - price)
  }

  /** The lock a position must carry: the value of its net side at the price, rounded down, up to 128 bits. */
  predicate ProperLock(yes: int, no: int, lock: int, price: int) {
    var value := if yes >= no then (yes - no) * price else (no - yes) * (10_000 - price);
    && 0 <= lock <= I128_MAX
    && lock * 10_000 <= value
    && (value <= I128_MAX ==> value < (lock + 1) * 10_000)
    && (value > I128_MAX ==> lock == I128_MAX / 10_000)
  }

  /** There is only one. */
  lemma ProperLockUnique(yes: int, no: int, lock: int, other: int, price: int)
    requires ProperLock(yes, no, lock, price) && ProperLock(yes, no, other, price)
    ensures lock == other
  {
  }

  /** Locks are computed properly. */
  lemma LockBounds(yes: int, no: int, price: int)
    requires ValidPrice(price)
    ensures ProperLock(yes, no, CalculateLockedCollateral(yes, no, price), price)
  {
    if yes >= no {
      ProductNonnegative(yes - no, price);
    } else {
      ProductNonnegative(no - yes, BASIS_POINTS - price);
    }
  }

  lemma ProductNonnegative(x: int, y: int)
    requires x >= 0 && y >= 0
    ensures x * y >= 0
  {
  }

  /** YES and NO shares held apart lock together what one pair is worth, less at most one stroop of rounding. */
  lemma SidesLockTogether(k: nat, price: int)
    requires ValidPrice(price) && k * BASIS_POINTS <= I128_MAX
    ensures var locks := CalculateLockedCollateral(k, 0, price) + CalculateLockedCollateral(0, k, price);
            && k - 1 <= locks <= k
            && (locks == k <==> k * price % BASIS_POINTS == 0)
  {
    ProductNonnegative(k, price);
    ProductNonnegative(k, BASIS_POINTS - price);
    assert k * price + k * (BASIS_POINTS - price) == k * BASIS_POINTS;
    FloorsOfComplements(k * price, k * (BASIS_POINTS - price), k);
  }

  lemma FloorsOfComplements(x: nat, y: nat, k: nat)
    requires x + y == k * BASIS_POINTS
    ensures k - 1 <= x / BASIS_POINTS + y / BASIS_POINTS <= k
    ensures x / BASIS_POINTS + y / BASIS_POINTS == k <==> x % BASIS_POINTS == 0
  {
  }

  /** Complete pairs never change a lock. */
  lemma PairsLockNothing(yes: int, no: int, k: int, price: int)
    ensures CalculateLockedCollateral(yes + k, no + k, price) == CalculateLockedCollateral(yes, no, price)
  {
    assert (yes + k) - (no + k) == yes - no && (no + k) - (yes + k) == no - yes;
  }

  /** Swapping the sides mirrors the price. */
  lemma LockMirror(yes: int, no: int, price: int)
    ensures CalculateLockedCollateral(yes, no, price) == CalculateLockedCollateral(no, yes, BASIS_POINTS - price)
  {
  }

  lemma FloorOfSum(x: nat, y: nat)
    ensures Saturate(x + y) / BASIS_POINTS <= Saturate(x) / BASIS_POINTS + Saturate(y) / BASIS_POINTS + 1
  {
  }

  lemma ScaleMonotone(x: int, y: int, bps: int)
    requires 0 <= x <= y && 0 <= bps
    ensures 0 <= ScaleByBps(x, bps) <= ScaleByBps(y, bps)
  {
    assert 0 <= x * bps <= y * bps;
  }

  lemma ScaleSum(x: int, y: int, bps: int)
    requires 0 <= x && 0 <= y && 0 <= bps
    ensures ScaleByBps(x + y, bps) <= ScaleByBps(x, bps) + ScaleByBps(y, bps) + 1
  {
    ProductNonnegative(x, bps);
    ProductNonnegative(y, bps);
    assert (x + y) * bps == x * bps + y * bps;
    FloorOfSum(x * bps, y * bps);
  }

  /** Netting two positions against each other costs at most one stroop of lock more than keeping them apart. */
  lemma MergedLock(yes1: int, no1: int, yes2: int, no2: int, price: int)
    requires ValidPrice(price)
    ensures CalculateLockedCollateral(yes1 + yes2, no1 + no2, price)
            <= CalculateLockedCollateral(yes1, no1, price) + CalculateLockedCollateral(yes2, no2, price) + 1
  {
    var a, b, q := yes1 - no1, yes2 - no2, BASIS_POINTS - price;
    LockBounds(yes1, no1, price);
    LockBounds(yes2, no2, price);
    assert (yes1 + yes2) - (no1 + no2) == a + b && (no1 + no2) - (yes1 + yes2) == -a + -b;
    if a >= 0 && b >= 0 {
      ScaleSum(a, b, price);
    } else if a <= 0 && b <= 0 {
      ScaleSum(-a, -b, q);
    } else if a + b > 0 {
      ScaleMonotone(a + b, if a > 0 then a else b, price);
    } else if a + b < 0 {
      ScaleMonotone(-(a + b), if a < 0 then -a else -b, q);
    }
  }

  /** The extra stroop does occur. */
  lemma MergedLockAttained()
    ensures CalculateLockedCollateral(1 + 1, 0, 5_000)
            == CalculateLockedCollateral(1, 0, 5_000) + CalculateLockedCollateral(1, 0, 5_000) + 1
  {
    assert ScaleByBps(1, 5_000) == 0 && ScaleByBps(2, 5_000) == 1;
  }

  // ---- The protocol-wide check ----

  /** `check_protocol_collateral`, with its saturating sum. */
  predicate CollateralCovers(prospective: i128, balance: i128, elsewhere: i128) {
    Saturate(prospective + elsewhere) <= balance
  }

  /** Saturation falsifies the check in one case only: the largest balance there is, and a sum beyond it. */
  lemma CollateralCheckExactly(prospective: i128, balance: i128, elsewhere: i128)
    ensures (CollateralCovers(prospective, balance, elsewhere) <==> prospective + elsewhere <= balance)
            <==> !(balance == I128_MAX && prospective + elsewhere > I128_MAX)
  {
  }

  // ---- Fees ----

  /** The fee of a withdrawal, or `None` for an amount or rate out of range or a product beyond 128 bits. */
  function CalculateFee(amount: int, rate: int): Option<int> {
    if amount <= 0 || !ValidPrice(rate) || amount * rate > I128_MAX then None else Some(amount * rate / BASIS_POINTS)
  }

  /** The dust rule: the fee rounds down, and what is lost is less than one fee unit. */
  lemma FeeBounds(amount: int, rate: int)
    ensures CalculateFee(amount, rate).Some? <==> amount > 0 && 0 <= rate <= 10_000 && amount * rate <= I128_MAX
    ensures CalculateFee(amount, rate).Some? ==>
              var fee := CalculateFee(amount, rate).value;
              && 0 <= fee <= amount
              && 0 <= amount * rate - fee * 10_000 < 10_000
              && (rate == 0 ==> fee == 0) && (rate == 10_000 ==> fee == amount)
  {
    if CalculateFee(amount, rate).Some? {
      ProductNonnegative(amount, rate);
      ProductNonnegative(amount, BASIS_POINTS - rate);
      assert amount * rate + amount * (BASIS_POINTS - rate) == amount * BASIS_POINTS;
    }
  }

  function SumOf(amounts: seq<int>): int {
    if amounts == [] then 0 else SumOf(amounts[..|amounts| - 1]) + amounts[|amounts| - 1]
  }

  /** The fees of several withdrawals at one rate. */
  function FeesOf(amounts: seq<int>, rate: int): int {
    if amounts == [] then 0
    else FeesOf(amounts[..|amounts| - 1], rate) + amounts[|amounts| - 1] * rate / BASIS_POINTS
  }

  lemma FloorSplit(x: nat, y: nat)
    ensures x / BASIS_POINTS + y / BASIS_POINTS <= (x + y) / BASIS_POINTS <= x / BASIS_POINTS + y / BASIS_POINTS + 1
  {
  }

  lemma {:induction false} SplitFees(amounts: seq<int>, rate: int)
    requires amounts != [] && 0 <= rate && forall i :: 0 <= i < |amounts| ==> amounts[i] > 0
    ensures SumOf(amounts) > 0
    ensures FeesOf(amounts, rate) <= SumOf(amounts) * rate / BASIS_POINTS <= FeesOf(amounts, rate) + |amounts| - 1
  {
    var init, last := amounts[..|amounts| - 1], amounts[|amounts| - 1];
    ProductNonnegative(last, rate);
    if init != [] {
      SplitFees(init, rate);
      ProductNonnegative(SumOf(init), rate);
      assert SumOf(amounts) * rate == SumOf(init) * rate + last * rate;
      FloorSplit(SumOf(init) * rate, last * rate);
    }
  }

  /** Splitting a withdrawal into `k` pieces saves less than `k` stroops of fees, and never costs more. */
  lemma SplittingSavesLittle(amounts: seq<int>, rate: int)
    requires amounts != [] && forall i :: 0 <= i < |amounts| ==> amounts[i] > 0
    requires CalculateFee(SumOf(amounts), rate).Some?
    ensures forall i :: 0 <= i < |amounts| ==> CalculateFee(amounts[i], rate).Some?
    ensures var whole := CalculateFee(SumOf(amounts), rate).value;
            whole - (|amounts| - 1) <= FeesOf(amounts, rate) <= whole
  {
    SplitFees(amounts, rate);
    forall i | 0 <= i < |amounts| ensures CalculateFee(amounts[i], rate).Some? {
      PieceWithin(amounts, i);
      ProductNonnegative(SumOf(amounts) - amounts[i], rate);
      assert SumOf(amounts) * rate == amounts[i] * rate + (SumOf(amounts) - amounts[i]) * rate;
    }
  }

  lemma {:induction false} PieceWithin(amounts: seq<int>, i: nat)
    requires i < |amounts| && forall j :: 0 <= j < |amounts| ==> amounts[j] > 0
    ensures amounts[i] <= SumOf(amounts)
  {
    var init := amounts[..|amounts| - 1];
    if i < |init| {
      PieceWithin(init, i);
    } else if init != [] {
      PieceWithin(init, 0);
    }
  }
}
