/**
 The stake of a session: rounding up so that the contract's two rounding-down divisions still grant the
 requested duration after one basis point of supply growth.
 */
module Stake {
  import opened Options

  datatype Quote = Quoted(stake: int) | InvalidInputs | DurationTooShort

  /** The contract: stipend from stake, then seconds from stipend, when the supply has become p/q of a unit. */
  function GrantedSeconds(stake: int, budget: int, p: int, q: int, price: int): int
    requires p > 0 && q > 0 && price > 0
  {
    (stake * budget * q / p) / price
  }

  lemma FloorAtLeast(a: int, b: int, c: int)
    requires b > 0
    ensures a / b >= c <==> a >= c * b
  {
    var k, r := a / b, a % b;
    assert a == k * b + r;
    if k >= c {
      assert k * b >= c * b;
    } else {
      assert (k + 1) * b <= c * b;
    }
  }

  lemma CeilingAtMost(a: int, b: int, s: int)
    requires b > 0
    ensures (a + b - 1) / b <= s <==> a <= s * b
  {
    FloorAtLeast(a + b - 1, b, s + 1);
    assert (s + 1) * b == s * b + b;
  }

  /** Both floors together cost nothing beyond one comparison of products. */
  lemma GrantedAtLeast(stake: int, budget: int, p: int, q: int, price: int, seconds: int)
    requires p > 0 && q > 0 && price > 0
    ensures GrantedSeconds(stake, budget, p, q, price) >= seconds <==> stake * budget * q >= seconds * price * p
  {
    FloorAtLeast(stake * budget * q / p, price, seconds);
    FloorAtLeast(stake * budget * q, p, seconds * price);
  }

  /** The loop over the inputs, the minimum, and the rounded-up quotient. */
  method GatewaySessionStake(price: Option<int>, duration: Option<int>, supply: Option<int>, budget: Option<int>)
    returns (r: Quote)
    ensures r.InvalidInputs? <==>
              !(forall v :: v in [price, duration, supply, budget] ==> v.Some? && v.value > 0)
    ensures r.DurationTooShort? <==> !r.InvalidInputs? && duration.value < 300
    ensures r.Quoted? ==>
              forall s :: s >= r.stake <==>
                GrantedSeconds(s, budget.value, supply.value * 10001, 10000, price.value) >= duration.value
    ensures r.Quoted? ==> r.stake == Rounded(price.value, duration.value, supply.value, budget.value)
  {
    var values := [price, duration, supply, budget];
    for i := 0 to |values|
      invariant forall k :: 0 <= k < i ==> values[k].Some? && values[k].value > 0
    {
      if values[i].None? || values[i].value <= 0 {
        assert values[i] in values;
        return InvalidInputs;
      }
    }
    assert values[0].value > 0 && values[1].value > 0 && values[2].value > 0 && values[3].value > 0;
    if duration.value < 300 {
      return DurationTooShort;
    }
    var numerator := supply.value * price.value;
    numerator := numerator * duration.value;
    numerator := numerator * 10001;
    var denominator := budget.value * 10000;
    numerator := numerator + (denominator - 1);
    r := Quoted(numerator / denominator);
    forall s ensures s >= r.stake <==>
      GrantedSeconds(s, budget.value, supply.value * 10001, 10000, price.value) >= duration.value
    {
      ExactStake(price.value, duration.value, supply.value, budget.value, s);
    }
  }

  function Rounded(price: int, duration: int, supply: int, budget: int): int
    requires budget > 0
  {
    (supply * price * duration * 10001 + (budget * 10000 - 1)) / (budget * 10000)
  }

  /** Exactly the stakes from the rounded one upward survive one basis point of growth. */
  lemma ExactStake(price: int, duration: int, supply: int, budget: int, s: int)
    requires price > 0 && duration > 0 && supply > 0 && budget > 0
    ensures s >= Rounded(price, duration, supply, budget) <==>
            GrantedSeconds(s, budget, supply * 10001, 10000, price) >= duration
  {
    var a, b := supply * price * duration * 10001, budget * 10000;
    CeilingAtMost(a, b, s);
    GrantedAtLeast(s, budget, supply * 10001, 10000, price, duration);
    assert duration * price * (supply * 10001) == a by {
      assert duration * price * supply == supply * price * duration;
    }
    assert s * budget * 10000 == s * b;
  }

  /** Any smaller growth, down to a shrinking supply, is covered too: the grant is monotone in the supply. */
  lemma SmallerGrowthCovered(price: int, duration: int, supply: int, budget: int, s: int, supply': int)
    requires price > 0 && duration > 0 && supply > 0 && budget > 0
    requires s >= Rounded(price, duration, supply, budget)
    requires 0 < supply' && 10000 * supply' <= 10001 * supply
    ensures GrantedSeconds(s, budget, supply', 1, price) >= duration
  {
    ExactStake(price, duration, supply, budget, s);
    GrantedAtLeast(s, budget, supply * 10001, 10000, price, duration);
    GrantedAtLeast(s, budget, supply', 1, price, duration);
    Scale(s * budget, duration * price, supply, supply');
  }

  lemma Scale(x: int, d: int, supply: int, supply': int)
    requires x * 10000 >= d * (supply * 10001) && d > 0 && 10000 * supply' <= 10001 * supply
    ensures x * 1 >= d * supply'
  {
    var slack := 10001 * supply - 10000 * supply';
    assert d * (supply * 10001) == d * (10000 * supply' + slack) == 10000 * (d * supply') + d * slack;
    assert d * slack >= 0;
  }

  /** The gateway's own estimate; only a zero budget is refused, and amounts are natural numbers. */
  method Estimate(price: nat, duration: int, supply: nat, budget: nat) returns (r: Option<int>)
    ensures r.None? <==> budget == 0
    ensures r.Some? && price > 0 && supply > 0 && duration > 0 ==>
              forall s :: s >= r.value <==> GrantedSeconds(s, budget, supply * 10001, 10000, price) >= duration
    ensures r.Some? && (price == 0 || supply == 0) ==> r.value == 0
    ensures r.Some? ==> r.value == Rounded(price, duration, supply, budget)
  {
    if budget == 0 {
      return None;
    }
    var numerator := supply * price * duration * 10001;
    var denominator := budget * 10000;
    r := Some((numerator + denominator - 1) / denominator);
    assert r.value == Rounded(price, duration, supply, budget);
    if price > 0 && supply > 0 && duration > 0 {
      forall s ensures s >= r.value <==> GrantedSeconds(s, budget, supply * 10001, 10000, price) >= duration {
        ExactStake(price, duration, supply, budget, s);
      }
    }
    if price == 0 || supply == 0 {
      assert supply * price == 0;
      assert numerator == 0;
      CeilingAtMost(0, denominator, 0);
      CeilingAtMost(0, denominator, -1);
    }
  }
}
