/** The treasury's proportional distribution: floors for all but the last recipient, who takes the remainder. */
module Distribution {
  import opened Base

  datatype DistributeError = Unauthorized | InvalidWeights | ArithmeticOverflow | Replay | CounterTrap

  datatype Role = Admin | Treasurer | Public

  datatype Shares = Shares(amounts: seq<int>, total: int)

  function Sum(xs: seq<int>): int {
    if xs == [] then 0 else Sum(xs[..|xs| - 1]) + xs[|xs| - 1]
  }

  function Floor(total: nat, weight: nat, whole: nat): nat
    requires whole > 0
  {
    total * weight / whole
  }

  lemma FloorBounds(total: nat, weight: nat, whole: nat)
    requires whole > 0
    ensures Floor(total, weight, whole) * whole <= total * weight <= Floor(total, weight, whole) * whole + whole - 1
  {
  }

  lemma SumAppend(xs: seq<int>, x: int)
    ensures Sum(xs + [x]) == Sum(xs) + x
  {
    assert (xs + [x])[..|xs|] == xs;
  }

  lemma SumPrefix(xs: seq<int>, i: nat)
    requires i < |xs|
    ensures Sum(xs[..i + 1]) == Sum(xs[..i]) + xs[i]
  {
    assert xs[..i + 1][..i] == xs[..i];
  }

  predicate Weights(weights: seq<int>) {
    forall i :: 0 <= i < |weights| ==> 0 <= weights[i] <= U128_MAX
  }

  lemma {:induction false} SumMonotone(weights: seq<int>, i: nat)
    requires Weights(weights) && i <= |weights|
    ensures 0 <= Sum(weights[..i]) <= Sum(weights)
  {
    if i < |weights| {
      var init := weights[..|weights| - 1];
      SumMonotone(init, i);
      assert init[..i] == weights[..i];
    } else {
      assert weights[..i] == weights;
      if weights != [] {
        var init := weights[..|weights| - 1];
        SumMonotone(init, |init|);
        assert init[..|init|] == init;
      }
    }
  }

  /** Some recipient before the last has a share whose 128-bit product overflows. */
  ghost predicate ProductOverflows(total: nat, weights: seq<int>) {
    exists i :: 0 <= i < |weights| - 1 && total * weights[i] > U128_MAX
  }

  /** The inputs that are turned down, with the error each gets. */
  ghost function Refusal(total: int, weights: seq<int>): Option<DistributeError> {
    if weights == [] then Some(InvalidWeights)
    else if total < 0 || Sum(weights) > U128_MAX then Some(ArithmeticOverflow)
    else if Sum(weights) == 0 then Some(InvalidWeights)
    else if ProductOverflows(total, weights) then Some(ArithmeticOverflow)
    else None
  }

  /** What a distribution has to be. */
  ghost predicate Fair(total: int, weights: seq<int>, d: Shares) {
    && total >= 0 && Weights(weights) && Sum(weights) > 0
    && d.total == total && Sum(d.amounts) == total
    && |d.amounts| == |weights| > 0
    && (forall i :: 0 <= i < |weights| - 1 ==> d.amounts[i] == Floor(total, weights[i], Sum(weights)))
    && (var floor := Floor(total, weights[|weights| - 1], Sum(weights));
        floor <= d.amounts[|weights| - 1] <= floor + |weights| - 1)
  }

  /** What has been given out after `i` recipients lags behind their exact shares by less than one unit each. */
  ghost predicate Lag(total: nat, weights: seq<int>, given: int, i: nat)
    requires i <= |weights|
  {
    var w := Sum(weights);
    given * w <= total * Sum(weights[..i]) <= given * w + i * (w - 1)
  }

  lemma Distribute(k: int, x: int, y: int)
    ensures k * (x + y) == k * x + k * y && (x + y) * k == x * k + y * k
  {
  }

  lemma LagStep(total: nat, weights: seq<int>, given: int, i: nat)
    requires Weights(weights) && Sum(weights) > 0 && i < |weights| && Lag(total, weights, given, i)
    ensures Lag(total, weights, given + Floor(total, weights[i], Sum(weights)), i + 1)
  {
    var w, x, p := Sum(weights), weights[i], Sum(weights[..i]);
    SumPrefix(weights, i);
    LagArithmetic(total, given, w, p, x, Floor(total, x, w), i);
  }

  lemma LagArithmetic(total: nat, given: int, w: nat, p: int, x: nat, f: nat, i: nat)
    requires w > 0 && f == Floor(total, x, w) && given * w <= total * p <= given * w + i * (w - 1)
    ensures (given + f) * w <= total * (p + x) <= (given + f) * w + (i + 1) * (w - 1)
  {
    FloorBounds(total, x, w);
    Distribute(total, p, x);
    Distribute(w, given, f);
    Distribute(w - 1, i, 1);
  }

  lemma LagNotAhead(total: nat, weights: seq<int>, given: int, i: nat)
    requires Weights(weights) && Sum(weights) > 0 && i <= |weights| && Lag(total, weights, given, i)
    ensures given <= total
  {
    var w := Sum(weights);
    SumMonotone(weights, i);
    assert total * Sum(weights[..i]) <= total * w by {
      MulMonotone(total, Sum(weights[..i]), w);
    }
    if given > total {
      MulStrict(w, total, given);
    }
  }

  lemma MulStrict(k: nat, x: nat, y: nat)
    requires k > 0 && x < y
    ensures x * k < y * k
  {
    MulMonotone(k, x + 1, y);
    Distribute(k, x, 1);
  }

  lemma MulMonotone(k: nat, x: int, y: int)
    requires x <= y
    ensures k * x <= k * y && x * k <= y * k
  {
  }

  /** The remainder the last recipient takes is its own floor plus at most one unit per other recipient. */
  lemma LastShare(total: nat, weights: seq<int>, given: int)
    requires Weights(weights) && Sum(weights) > 0 && weights != []
    requires Lag(total, weights, given, |weights| - 1)
    ensures var floor := Floor(total, weights[|weights| - 1], Sum(weights));
            floor <= total - given <= floor + |weights| - 1
  {
    var n := |weights|;
    SumPrefix(weights, n - 1);
    assert weights[..n] == weights;
    LastArithmetic(total, given, Sum(weights), Sum(weights[..n - 1]), weights[n - 1], n);
  }

  lemma LastArithmetic(total: nat, given: int, w: nat, p: int, x: nat, n: nat)
    requires w > 0 && n > 0 && w == p + x && given * w <= total * p <= given * w + (n - 1) * (w - 1)
    ensures Floor(total, x, w) <= total - given <= Floor(total, x, w) + n - 1
  {
    var f, last := Floor(total, x, w), total - given;
    FloorBounds(total, x, w);
    Distribute(total, p, x);
    Distribute(w, given, last);
    Distribute(w - 1, n - 1, 1);
    assert f * w <= last * w <= f * w + n * (w - 1);
    FloorCompare(w, f, last, n);
  }

  lemma FloorCompare(w: nat, f: int, last: int, n: nat)
    requires w > 0 && n > 0 && f * w <= last * w <= f * w + n * (w - 1)
    ensures f <= last <= f + n - 1
  {
    Distribute(w, last, 1);
    Distribute(w, f, n);
    Distribute(n, w, -1);
    if last < f {
      MulMonotone(w, last + 1, f);
    }
    if last >= f + n {
      MulMonotone(w, f + n, last);
    }
  }

  /** Adds up the weights with checked arithmetic. */
  method SumWeights(weights: seq<int>) returns (sum: Option<int>)
    requires Weights(weights)
    ensures sum == if Sum(weights) > U128_MAX then None else Some(Sum(weights))
  {
    var total := 0;
    for i := 0 to |weights|
      invariant total == Sum(weights[..i]) <= U128_MAX
    {
      SumPrefix(weights, i);
      SumMonotone(weights, i + 1);
      if total + weights[i] > U128_MAX {
        return None;
      }
      total := total + weights[i];
    }
    assert weights[..|weights|] == weights;
    return Some(total);
  }

  /**
   Splits `total` in proportion to the weights. The checked subtraction never fails and the amounts always
   add up, so no call fails for any reason but those of `Refusal`.
   */
  method ComputeDistribution(total: i128, weights: seq<int>) returns (r: Result<Shares, DistributeError>)
    requires Weights(weights)
    ensures match Refusal(total, weights)
            case Some(e) => r == Failure(e)
            case None => r.Success? && Fair(total, weights, r.value)
  {
    if |weights| == 0 {
      return Failure(InvalidWeights);
    }
    if total < 0 {
      return Failure(ArithmeticOverflow);
    }
    var summed := SumWeights(weights);
    if summed.None? {
      return Failure(ArithmeticOverflow);
    }
    var weightSum := summed.value;
    if weightSum == 0 {
      return Failure(InvalidWeights);
    }
    SumMonotone(weights, |weights|);
    var amounts: seq<int> := [];
    var distributed := 0;
    var last := |weights| - 1;
    assert Lag(total, weights, 0, 0);
    for i := 0 to |weights|
      invariant |amounts| == i && distributed == Sum(amounts) && 0 <= distributed <= total
      invariant forall j :: 0 <= j < i && j < last ==> total * weights[j] <= U128_MAX
      invariant forall j :: 0 <= j < i && j < last ==> amounts[j] == Floor(total, weights[j], weightSum)
      invariant i <= last ==> Lag(total, weights, distributed, i)
      invariant i > last ==> distributed == total
      invariant i > last ==> var floor := Floor(total, weights[last], weightSum);
                             floor <= amounts[last] <= floor + last
    {
      var share: int;
      if i == last {
        LastShare(total, weights, distributed);
        share := total - distributed;
      } else {
        if total * weights[i] > U128_MAX {
          assert ProductOverflows(total, weights);
          return Failure(ArithmeticOverflow);
        }
        share := Floor(total, weights[i], weightSum);
        LagStep(total, weights, distributed, i);
        LagNotAhead(total, weights, distributed + share, i + 1);
      }
      SumAppend(amounts, share);
      distributed := distributed + share;
      amounts := amounts + [share];
    }
    return Success(Shares(amounts, distributed));
  }

  /** The distribution is determined by its inputs. */
  lemma FairIsUnique(total: int, weights: seq<int>, d: Shares, e: Shares)
    requires Fair(total, weights, d) && Fair(total, weights, e)
    ensures d == e
  {
    var n := |weights|;
    assert d.amounts[..n - 1] == e.amounts[..n - 1];
    assert d.amounts == d.amounts[..n - 1] + [d.amounts[n - 1]];
    assert e.amounts == e.amounts[..n - 1] + [e.amounts[n - 1]];
  }

  class TreasuryState {
    var distributedTotal: int
    var invocations: u32
    var processed: seq<nat>

    constructor ()
      ensures distributedTotal == 0 && invocations == 0 && processed == []
    {
      distributedTotal, invocations, processed := 0, 0, [];
    }

    /** The request passes authorization and replay protection, and its split exists. */
    ghost predicate Admits(role: Role, requestId: nat, total: i128, weights: seq<int>)
      reads this
    {
      role != Public && requestId !in processed && Refusal(total, weights) == None
    }

    /**
     Authorization, then replay protection, then the split. A failure leaves the state alone except for two: when the
     running total overflows, the request id has been recorded, and when the 32-bit counter does, the total as well.
     */
    method ApplyDistribute(role: Role, requestId: nat, total: i128, weights: seq<int>)
      returns (r: Result<Shares, DistributeError>)
      requires Weights(weights) && distributedTotal <= I128_MAX
      modifies this
      ensures distributedTotal <= I128_MAX
      ensures r.Success? <==>
                old(Admits(role, requestId, total, weights)) && old(distributedTotal) + total <= I128_MAX
                && old(invocations) < U32_MAX
      ensures r.Success? ==> Fair(total, weights, r.value)
      ensures processed == if old(Admits(role, requestId, total, weights)) then old(processed) + [requestId]
                           else old(processed)
      ensures distributedTotal
              == if old(Admits(role, requestId, total, weights)) && old(distributedTotal) + total <= I128_MAX
                 then old(distributedTotal) + total else old(distributedTotal)
      ensures invocations == if r.Success? then old(invocations) + 1 else old(invocations)
      ensures r.Failure? ==> (processed != old(processed) <==> old(Admits(role, requestId, total, weights)))
      ensures r.Failure? ==>
                r.error == if role == Public then Unauthorized
                           else if requestId in old(processed) then Replay
                           else if Refusal(total, weights).Some? then Refusal(total, weights).value
                           else if old(distributedTotal) + total > I128_MAX then ArithmeticOverflow
                           else CounterTrap
    {
      if role == Public {
        return Failure(Unauthorized);
      }
      if requestId in processed {
        return Failure(Replay);
      }
      var distribution := ComputeDistribution(total, weights);
      if distribution.Failure? {
        return Failure(distribution.error);
      }
      processed := processed + [requestId];
      if distributedTotal + distribution.value.total > I128_MAX {
        return Failure(ArithmeticOverflow);
      }
      distributedTotal := distributedTotal + distribution.value.total;
      if invocations + 1 > U32_MAX {
        return Failure(CounterTrap);
      }
      invocations := invocations + 1;
      return Success(distribution.value);
    }
  }

  /** A fresh treasury pays out the largest total; one unit more is refused, and its request id stays recorded. */
  method OverflowKeepsRequest() returns (t: TreasuryState)
    ensures fresh(t) && t.distributedTotal == I128_MAX && t.invocations == 1 && t.processed == [1, 2]
  {
    t := new TreasuryState();
    assert Sum([1][..0]) == 0 && Sum([1]) == 1;
    var first := t.ApplyDistribute(Admin, 1, I128_MAX, [1]);
    assert first.Success?;
    var second := t.ApplyDistribute(Admin, 2, 1, [1]);
    assert second == Failure(ArithmeticOverflow);
  }
}
