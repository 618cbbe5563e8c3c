/** The progressive (block-rate) pricing walk shared by the electricity and the
    water bill: consume the tiers of a schedule in order, each up to its limit
    at its own rate, stop as soon as nothing is left to bill, and charge any
    units beyond the last tier at an overflow rate. */
module TierWalk {

  /** One block of a schedule: up to `limit` units, each billed at `rate`. */
  datatype Tier = Tier(limit: nat, rate: nat)

  function Min(a: int, b: int): int { if a <= b then a else b }

  function Max(a: int, b: int): int { if a <= b then b else a }

  /** The units the walk bills in tier `t` while `remaining` units are unbilled
      (the `min(remaining, limit)` step of the loop). */
  function Take(remaining: int, t: Tier): (used: nat)
    requires remaining > 0
    ensures used <= t.limit && used <= remaining
    ensures used == t.limit || used == remaining
  {
    Min(remaining, t.limit)
  }

  /** The dearest rate of a schedule, its overflow rate included. */
  function TopRate(tiers: seq<Tier>, overflowRate: nat): nat
  {
    if |tiers| == 0 then overflowRate
    else var top := TopRate(tiers[1..], overflowRate);
      if tiers[0].rate <= top then top else tiers[0].rate
  }

  /** The cheapest rate of a schedule, its overflow rate included. */
  function LowRate(tiers: seq<Tier>, overflowRate: nat): nat
  {
    if |tiers| == 0 then overflowRate
    else var low := LowRate(tiers[1..], overflowRate);
      if tiers[0].rate <= low then tiers[0].rate else low
  }

  /** The amount, before surcharge, that the walk bills for `remaining` units
      over `tiers`, followed by the overflow rate. A walk that finds nothing
      left stops and adds no overflow; when every rate is positive, anything
      left to bill costs something. */
  function Subtotal(remaining: int, tiers: seq<Tier>, overflowRate: nat): (r: nat)
    ensures remaining <= 0 ==> r == 0
    ensures remaining > 0 && LowRate(tiers, overflowRate) > 0 ==> r > 0
    decreases |tiers|
  {
    if remaining <= 0 then 0
    else if |tiers| == 0 then remaining * overflowRate
    else
      var used := Take(remaining, tiers[0]);
      used * tiers[0].rate + Subtotal(remaining - used, tiers[1..], overflowRate)
  }

  /** Every unit billed costs between the cheapest and the dearest rate of
      the schedule. */
  lemma {:induction false} RateBounds(remaining: int, tiers: seq<Tier>, overflowRate: nat)
    ensures Max(0, remaining) * LowRate(tiers, overflowRate) <= Subtotal(remaining, tiers, overflowRate)
    ensures Subtotal(remaining, tiers, overflowRate) <= Max(0, remaining) * TopRate(tiers, overflowRate)
    decreases |tiers|
  {
    if remaining > 0 && |tiers| != 0 {
      var used := Take(remaining, tiers[0]);
      RateBounds(remaining - used, tiers[1..], overflowRate);
      RateBoundsStep(used, remaining - used, tiers[0].rate,
                     LowRate(tiers[1..], overflowRate), TopRate(tiers[1..], overflowRate),
                     LowRate(tiers, overflowRate), TopRate(tiers, overflowRate));
    }
  }

  /** Billing `u` units at `x` and `m` more at rates between `l` and `t`
      stays between the bounds `lo` and `hi` of all those rates. */
  lemma RateBoundsStep(u: nat, m: nat, x: nat, l: nat, t: nat, lo: nat, hi: nat)
    requires lo <= x <= hi && lo <= l && t <= hi
    ensures (u + m) * lo <= u * x + m * l
    ensures u * x + m * t <= (u + m) * hi
  {
    assert (u + m) * lo == u * lo + m * lo;
    assert (u + m) * hi == u * hi + m * hi;
    assert u * lo <= u * x <= u * hi;
    assert m * lo <= m * l;
    assert m * t <= m * hi;
  }

  /** The units one tier bills: none once the walk has stopped. */
  function Billed(remaining: int, t: Tier): nat
  {
    if remaining <= 0 then 0 else Take(remaining, t)
  }

  /** What remains unbilled after one tier. */
  function Rest(remaining: int, t: Tier): int
  {
    remaining - Billed(remaining, t)
  }

  /** The units billed in each tier; tiers after the walk stopped bill none. */
  function Allocation(remaining: int, tiers: seq<Tier>): (used: seq<nat>)
    ensures |used| == |tiers|
    ensures forall i :: 0 <= i < |tiers| ==> used[i] <= tiers[i].limit
    decreases |tiers|
  {
    if |tiers| == 0 then []
    else [Billed(remaining, tiers[0])] + Allocation(Rest(remaining, tiers[0]), tiers[1..])
  }

  /** What is left unbilled once the walk over `tiers` is over. */
  function Leftover(remaining: int, tiers: seq<Tier>): int
    decreases |tiers|
  {
    if |tiers| == 0 then remaining
    else Leftover(Rest(remaining, tiers[0]), tiers[1..])
  }

  /** The units that go to the overflow rate. */
  function OverflowUnits(remaining: int, tiers: seq<Tier>): nat
  {
    Max(0, Leftover(remaining, tiers))
  }

  function Sum(s: seq<nat>): nat
  {
    if |s| == 0 then 0 else s[0] + Sum(s[1..])
  }

  /** The total of all tier limits. */
  function Capacity(tiers: seq<Tier>): nat
  {
    if |tiers| == 0 then 0 else tiers[0].limit + Capacity(tiers[1..])
  }

  /** The amount charged for `used[i]` units in tier `i`, over all tiers. */
  function Charge(used: seq<nat>, tiers: seq<Tier>): nat
    requires |used| == |tiers|
  {
    if |used| == 0 then 0 else used[0] * tiers[0].rate + Charge(used[1..], tiers[1..])
  }

  /** `x` cut to the range 0 .. hi. */
  function Clamp(x: int, hi: nat): nat
  {
    if x <= 0 then 0 else Min(x, hi)
  }

  /** The rate paid for unit number `c + 1`: that of the first tier not yet full. */
  function MarginalRate(c: nat, tiers: seq<Tier>, overflowRate: nat): nat
    decreases |tiers|
  {
    if |tiers| == 0 then overflowRate
    else if c < tiers[0].limit then tiers[0].rate
    else MarginalRate(c - tiers[0].limit, tiers[1..], overflowRate)
  }

  /** The loop of `calculate_total_amount`: `remaining` and `amount` are its
      accumulators, and it leaves the loop early once nothing is left. The
      final `remaining` is what the walk leaves unbilled; it never exceeds
      the consumption and never goes below 0 for a non-negative one. */
  method Walk(consumption: int, tiers: seq<Tier>, overflowRate: nat) returns (amount: int, remaining: int)
    ensures amount == Subtotal(consumption, tiers, overflowRate)
    ensures remaining == Leftover(consumption, tiers)
    ensures remaining <= consumption
    ensures consumption >= 0 ==> remaining >= 0
  {
    remaining := consumption;
    amount := 0;
    var i := 0;
    while i < |tiers|
      invariant 0 <= i <= |tiers|
      invariant amount + Subtotal(remaining, tiers[i..], overflowRate)
                == Subtotal(consumption, tiers, overflowRate)
      invariant Leftover(remaining, tiers[i..]) == Leftover(consumption, tiers)
      invariant remaining <= consumption
      invariant consumption >= 0 ==> remaining >= 0
    {
      if remaining <= 0 {
        LeftoverClosedForm(remaining, tiers[i..]);
        break;
      }
      var used := Take(remaining, tiers[i]);
      amount := amount + used * tiers[i].rate;
      remaining := remaining - used;
      i := i + 1;
    }
    if remaining > 0 {
      amount := amount + remaining * overflowRate;
    }
  }

  lemma AllocationTail(c: int, tiers: seq<Tier>)
    requires |tiers| > 0
    ensures Allocation(c, tiers)[0] == Billed(c, tiers[0])
    ensures Allocation(c, tiers)[1..] == Allocation(Rest(c, tiers[0]), tiers[1..])
  {
  }

  lemma CapacityPrefix(tiers: seq<Tier>, i: nat)
    requires 0 < i <= |tiers|
    ensures Capacity(tiers[..i]) == tiers[0].limit + Capacity(tiers[1..][..i - 1])
  {
    assert tiers[..i][1..] == tiers[1..][..i - 1];
  }

  /** Clamping after one tier is clamping past that tier's limit. */
  lemma RestThenClamp(c: int, t: Tier, before: nat, hi: nat)
    ensures Clamp(Rest(c, t) - before, hi) == Clamp(c - t.limit - before, hi)
  {
  }

  /** No unit is dropped or billed twice: the units billed per tier plus what
      is left add up to the consumption. For a non-negative consumption the
      leftover is exactly the overflow units. */
  lemma {:induction false} Conservation(c: int, tiers: seq<Tier>)
    ensures Sum(Allocation(c, tiers)) + Leftover(c, tiers) == c
    ensures c >= 0 ==> Sum(Allocation(c, tiers)) + OverflowUnits(c, tiers) == c
    decreases |tiers|
  {
    if |tiers| != 0 {
      var next := Rest(c, tiers[0]);
      Conservation(next, tiers[1..]);
      AllocationTail(c, tiers);
    }
    LeftoverClosedForm(c, tiers);
  }

  /** What is left is untouched input when there is nothing to bill, and
      otherwise exactly the units beyond the total capacity, never negative. */
  lemma {:induction false} LeftoverClosedForm(c: int, tiers: seq<Tier>)
    ensures Leftover(c, tiers) == if c <= 0 then c else Max(0, c - Capacity(tiers))
    decreases |tiers|
  {
    if |tiers| != 0 {
      LeftoverClosedForm(Rest(c, tiers[0]), tiers[1..]);
    }
  }

  /** The tiers fill in order: tier `i` bills what remains of the consumption
      after the capacity of the tiers before it, up to its own limit. */
  lemma {:induction false} FillsInOrder(c: int, tiers: seq<Tier>, i: nat)
    requires i < |tiers|
    ensures Allocation(c, tiers)[i] == Clamp(c - Capacity(tiers[..i]), tiers[i].limit)
    decreases i
  {
    if i > 0 {
      var rest := tiers[1..];
      var next := Rest(c, tiers[0]);
      FillsInOrder(next, rest, i - 1);
      AllocationTail(c, tiers);
      assert Allocation(c, tiers)[i] == Allocation(next, rest)[i - 1];
      CapacityPrefix(tiers, i);
      assert rest[i - 1] == tiers[i];
      RestThenClamp(c, tiers[0], Capacity(rest[..i - 1]), tiers[i].limit);
    }
  }

  /** The walk's amount is the per-tier charge of the allocation plus the
      overflow units at the overflow rate. */
  lemma {:induction false} SubtotalByTier(c: int, tiers: seq<Tier>, overflowRate: nat)
    ensures Subtotal(c, tiers, overflowRate)
            == Charge(Allocation(c, tiers), tiers) + OverflowUnits(c, tiers) * overflowRate
    decreases |tiers|
  {
    if |tiers| != 0 {
      var next := Rest(c, tiers[0]);
      SubtotalByTier(next, tiers[1..], overflowRate);
      AllocationTail(c, tiers);
    }
  }

  /** One more unit costs exactly the rate of the first tier that still has room. */
  lemma {:induction false} NextUnit(c: nat, tiers: seq<Tier>, overflowRate: nat)
    ensures Subtotal(c + 1, tiers, overflowRate)
            == Subtotal(c, tiers, overflowRate) + MarginalRate(c, tiers, overflowRate)
    decreases |tiers|
  {
    if |tiers| == 0 {
      assert (c + 1) * overflowRate == c * overflowRate + overflowRate;
    } else if c < tiers[0].limit {
      var rate := tiers[0].rate;
      assert Subtotal(c + 1, tiers, overflowRate) == (c + 1) * rate;
      assert Subtotal(c, tiers, overflowRate) == c * rate;
      assert (c + 1) * rate == c * rate + rate;
    } else {
      NextUnit(c - tiers[0].limit, tiers[1..], overflowRate);
    }
  }

  /** Zero (or negative) consumption costs nothing, and the amount never
      decreases as consumption grows. */
  lemma {:induction false} Monotone(c: int, d: int, tiers: seq<Tier>, overflowRate: nat)
    requires c <= d
    ensures c <= 0 ==> Subtotal(c, tiers, overflowRate) == 0
    ensures Subtotal(c, tiers, overflowRate) <= Subtotal(d, tiers, overflowRate)
    decreases d - c
  {
    if c < d && d > 0 {
      Monotone(c, d - 1, tiers, overflowRate);
      NextUnit(d - 1, tiers, overflowRate);
    }
  }
}
