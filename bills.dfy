/** The two utility bills of an apartment. Each recomputes its amount from the
    tier walk every time it is saved; the electricity bill first derives its
    consumption from two meter readings and refuses readings that run
    backwards. The amount stored is the tier subtotal with a 10% surcharge,
    kept here as an exact rational. */
module Bills {
  import opened TierWalk

  /** The electricity schedule, in kWh and price per kWh. */
  const ElectricityTiers: seq<Tier> :=
    [Tier(50, 1678), Tier(50, 1734), Tier(100, 2014), Tier(100, 2536), Tier(100, 2834)]

  /** The price per kWh beyond the 400 kWh the schedule covers. */
  const ElectricityOverflowRate: nat := 2927

  /** The water schedule scales with the number of registered residents. */
  function WaterTiers(registeredPeople: nat): seq<Tier>
  {
    [Tier(registeredPeople * 4, 6700), Tier(registeredPeople * 2, 12900)]
  }

  /** The price per unit of water beyond the schedule, and the flat price
      when the apartment has no registered residents. */
  const WaterOverflowRate: nat := 14400

  const IndexOrderMessage: string := "Current index cannot be smaller than the previous index."

  /** A save either goes through or is refused with the reason. */
  datatype SaveOutcome = Saved | Rejected(reason: string)

  /** The stored amount: the subtotal increased by exactly one tenth of
      itself, so ten times the amount is a whole number. */
  function WithSurcharge(subtotal: int): (amount: real)
    ensures amount - subtotal as real == subtotal as real / 10.0
    ensures amount * 10.0 == (11 * subtotal) as real
  {
    subtotal as real * 1.1
  }

  /** The electricity subtotal: the walk over the fixed schedule. No kWh
      costs less than the first tier's 1678 or more than the overflow's 2927. */
  function ElectricitySubtotal(kwh: int): (r: nat)
    ensures kwh <= 0 ==> r == 0
    ensures kwh > 0 ==> 1678 * kwh <= r <= 2927 * kwh
  {
    assert TopRate(ElectricityTiers, ElectricityOverflowRate) == 2927;
    assert LowRate(ElectricityTiers, ElectricityOverflowRate) == 1678;
    RateBounds(kwh, ElectricityTiers, ElectricityOverflowRate);
    Subtotal(kwh, ElectricityTiers, ElectricityOverflowRate)
  }

  /** The water subtotal: the tier walk when the apartment has residents,
      otherwise the flat rate on the whole consumption. */
  function WaterSubtotal(consumption: int, registeredPeople: nat): (r: int)
    ensures consumption >= 0 ==> 6700 * consumption <= r <= 14400 * consumption
    ensures registeredPeople > 0 ==> r >= 0
    ensures registeredPeople == 0 && consumption < 0 ==> r < 0
  {
    var tiers := WaterTiers(registeredPeople);
    assert tiers[1..][1..] == [];
    assert TopRate(tiers[1..], WaterOverflowRate) == 14400;
    assert LowRate(tiers[1..], WaterOverflowRate) == 12900;
    assert TopRate(tiers, WaterOverflowRate) == 14400;
    assert LowRate(tiers, WaterOverflowRate) == 6700;
    RateBounds(consumption, tiers, WaterOverflowRate);
    if registeredPeople > 0 then Subtotal(consumption, WaterTiers(registeredPeople), WaterOverflowRate)
    else consumption * WaterOverflowRate
  }

  /** The electricity subtotal written out bracket by bracket; each constant
      is the price of all brackets below. */
  function ElectricityByBracket(kwh: int): int
  {
    if kwh <= 0 then 0
    else if kwh <= 50 then 1678 * kwh
    else if kwh <= 100 then 83900 + 1734 * (kwh - 50)
    else if kwh <= 200 then 170600 + 2014 * (kwh - 100)
    else if kwh <= 300 then 372000 + 2536 * (kwh - 200)
    else if kwh <= 400 then 625600 + 2834 * (kwh - 300)
    else 909000 + 2927 * (kwh - 400)
  }

  /** The water subtotal for an apartment with residents, bracket by bracket. */
  function WaterByBracket(consumption: int, registeredPeople: nat): int
  {
    var p := registeredPeople;
    if consumption <= 0 then 0
    else if consumption <= 4 * p then 6700 * consumption
    else if consumption <= 6 * p then 26800 * p + 12900 * (consumption - 4 * p)
    else 52600 * p + 14400 * (consumption - 6 * p)
  }

  /** A unit that fits in the first tier costs that tier's rate. */
  lemma FirstTier(c: int, t: Tier, rest: seq<Tier>, overflowRate: nat)
    requires 0 < c <= t.limit
    ensures Subtotal(c, [t] + rest, overflowRate) == c * t.rate
  {
    assert ([t] + rest)[1..] == rest;
  }

  /** A consumption that fills the first tier pays it in full and walks on. */
  lemma PastFirstTier(c: int, t: Tier, rest: seq<Tier>, overflowRate: nat)
    requires c > 0 && c >= t.limit
    ensures Subtotal(c, [t] + rest, overflowRate)
            == t.limit * t.rate + Subtotal(c - t.limit, rest, overflowRate)
  {
    assert ([t] + rest)[1..] == rest;
  }

  /** The walk over the schedule from its third tier on (200 kWh at most are
      billed before the overflow), by bracket. */
  lemma UpperBrackets(k: int)
    ensures Subtotal(k, ElectricityTiers[2..], ElectricityOverflowRate)
            == if k <= 0 then 0
               else if k <= 100 then 2014 * k
               else if k <= 200 then 201400 + 2536 * (k - 100)
               else if k <= 300 then 455000 + 2834 * (k - 200)
               else 738400 + 2927 * (k - 300)
  {
    var t2, t3, t4 := Tier(100, 2014), Tier(100, 2536), Tier(100, 2834);
    var r4: seq<Tier> := [t4];
    var r3 := [t3] + r4;
    assert ElectricityTiers[2..] == [t2] + r3;
    var o := ElectricityOverflowRate;
    if k > 0 {
      if k <= 100 {
        FirstTier(k, t2, r3, o);
      } else {
        PastFirstTier(k, t2, r3, o);
        if k <= 200 {
          FirstTier(k - 100, t3, r4, o);
        } else {
          PastFirstTier(k - 100, t3, r4, o);
          if k <= 300 {
            FirstTier(k - 200, t4, [], o);
          } else {
            PastFirstTier(k - 200, t4, [], o);
          }
        }
      }
    }
  }

  /** The first two brackets, up to 100 kWh. */
  lemma LowerBrackets(kwh: int)
    requires 0 < kwh <= 100
    ensures ElectricitySubtotal(kwh) == ElectricityByBracket(kwh)
  {
    var t0, t1 := Tier(50, 1678), Tier(50, 1734);
    var r2 := ElectricityTiers[2..];
    var r1 := [t1] + r2;
    assert ElectricityTiers == [t0] + r1;
    if kwh <= 50 {
      FirstTier(kwh, t0, r1, ElectricityOverflowRate);
    } else {
      PastFirstTier(kwh, t0, r1, ElectricityOverflowRate);
      FirstTier(kwh - 50, t1, r2, ElectricityOverflowRate);
    }
  }

  /** Beyond 100 kWh the first two brackets are paid in full. */
  lemma AboveLowerBrackets(kwh: int)
    requires kwh > 100
    ensures ElectricitySubtotal(kwh) == ElectricityByBracket(kwh)
  {
    var t0, t1 := Tier(50, 1678), Tier(50, 1734);
    var r2 := ElectricityTiers[2..];
    var r1 := [t1] + r2;
    assert ElectricityTiers == [t0] + r1;
    PastFirstTier(kwh, t0, r1, ElectricityOverflowRate);
    PastFirstTier(kwh - 50, t1, r2, ElectricityOverflowRate);
    UpperBrackets(kwh - 100);
  }

  /** The walk over the electricity schedule agrees with the bracket table. */
  lemma ElectricityClosedForm(kwh: int)
    ensures ElectricitySubtotal(kwh) == ElectricityByBracket(kwh)
  {
    if 0 < kwh <= 100 {
      LowerBrackets(kwh);
    } else if kwh > 100 {
      AboveLowerBrackets(kwh);
    }
  }

  /** The water walk for an apartment with residents agrees with its bracket table. */
  lemma WaterClosedForm(consumption: int, registeredPeople: nat)
    requires registeredPeople > 0
    ensures WaterSubtotal(consumption, registeredPeople) == WaterByBracket(consumption, registeredPeople)
  {
    var p := registeredPeople;
    var t0, t1 := Tier(p * 4, 6700), Tier(p * 2, 12900);
    assert WaterTiers(p) == [t0] + [t1];
    var o := WaterOverflowRate;
    if consumption <= 0 {
    } else if consumption <= 4 * p {
      FirstTier(consumption, t0, [t1], o);
    } else {
      PastFirstTier(consumption, t0, [t1], o);
      if consumption <= 6 * p {
        FirstTier(consumption - 4 * p, t1, [], o);
      } else {
        PastFirstTier(consumption - 4 * p, t1, [], o);
      }
    }
  }

  /** The electricity subtotal is zero for no consumption, is the first
      tier's rate up to 50 kWh, is 909000 plus the overflow rate beyond
      400 kWh, and never decreases as consumption grows. */
  lemma ElectricityShape(kwh: int, more: int)
    requires kwh <= more
    ensures kwh <= 0 ==> ElectricitySubtotal(kwh) == 0
    ensures 0 <= kwh <= 50 ==> ElectricitySubtotal(kwh) == 1678 * kwh
    ensures kwh >= 400 ==> ElectricitySubtotal(kwh) == 909000 + (kwh - 400) * 2927
    ensures ElectricitySubtotal(kwh) <= ElectricitySubtotal(more)
  {
    ElectricityClosedForm(kwh);
    Monotone(kwh, more, ElectricityTiers, ElectricityOverflowRate);
  }

  /** Water for an apartment with residents: nothing for no consumption, the
      first tier's rate while within four units per resident. */
  lemma WaterFirstTier(consumption: int, registeredPeople: nat)
    requires registeredPeople > 0
    ensures consumption <= 0 ==> WaterSubtotal(consumption, registeredPeople) == 0
    ensures 0 <= consumption <= 4 * registeredPeople
            ==> WaterSubtotal(consumption, registeredPeople) == 6700 * consumption
  {
    WaterClosedForm(consumption, registeredPeople);
  }

  /** For a non-negative consumption the flat rate charged to an apartment
      without residents is what the tier walk over its empty tiers gives. */
  lemma WaterFlatMatchesWalk(consumption: int)
    requires consumption >= 0
    ensures WaterSubtotal(consumption, 0) == Subtotal(consumption, WaterTiers(0), WaterOverflowRate)
  {
    if consumption > 0 {
      PastFirstTier(consumption, Tier(0, 6700), [Tier(0, 12900)], WaterOverflowRate);
      PastFirstTier(consumption, Tier(0, 12900), [], WaterOverflowRate);
    }
  }

  /** For a negative consumption the two paths part: the flat rate charges a
      negative amount where the tier walk charges nothing. */
  lemma WaterFlatDiffersBelowZero(consumption: int)
    requires consumption < 0
    ensures WaterSubtotal(consumption, 0) < 0
    ensures Subtotal(consumption, WaterTiers(0), WaterOverflowRate) == 0
  {
  }

  /** The water subtotal never decreases as consumption grows, whatever the
      number of residents. */
  lemma WaterMonotone(consumption: int, more: int, registeredPeople: nat)
    requires consumption <= more
    ensures WaterSubtotal(consumption, registeredPeople) <= WaterSubtotal(more, registeredPeople)
  {
    if registeredPeople > 0 {
      Monotone(consumption, more, WaterTiers(registeredPeople), WaterOverflowRate);
    }
  }

  /** An electricity bill: two meter readings, and the consumption and amount
      derived from them on every save. */
  class ElectricityBill {
    var previousIndex: int
    var currentIndex: int
    var totalKwh: int
    var totalAmount: real

    constructor (previousIndex: int, currentIndex: int)
      ensures this.previousIndex == previousIndex && this.currentIndex == currentIndex
      ensures totalKwh == 0 && totalAmount == 0.0
    {
      this.previousIndex := previousIndex;
      this.currentIndex := currentIndex;
      totalKwh := 0;
      totalAmount := 0.0;
    }

    /** The price of the consumption currently recorded on the bill. */
    method CalculateTotalAmount() returns (amount: real)
      ensures amount == WithSurcharge(ElectricityByBracket(totalKwh))
    {
      var subtotal, _ := Walk(totalKwh, ElectricityTiers, ElectricityOverflowRate);
      ElectricityClosedForm(totalKwh);
      amount := WithSurcharge(subtotal);
    }

    /** Refuses readings that run backwards and then leaves the bill as it
      was; otherwise records the consumption and its price. */
    method Save() returns (outcome: SaveOutcome)
      modifies this`totalKwh, this`totalAmount
      ensures outcome == (if old(currentIndex) < old(previousIndex) then Rejected(IndexOrderMessage) else Saved)
      ensures outcome.Rejected? ==> totalKwh == old(totalKwh) && totalAmount == old(totalAmount)
      ensures outcome.Saved? ==> totalKwh == currentIndex - previousIndex >= 0
      ensures outcome.Saved? ==> totalAmount == WithSurcharge(ElectricityByBracket(totalKwh))
    {
      if currentIndex < previousIndex {
        return Rejected(IndexOrderMessage);
      }
      totalKwh := currentIndex - previousIndex;
      totalAmount := CalculateTotalAmount();
      outcome := Saved;
    }
  }

  /** A water bill: the consumption as entered, and its amount recomputed on
      every save from the apartment's current number of residents. */
  class WaterBill {
    var waterConsumption: int
    var totalAmount: real

    constructor (waterConsumption: int)
      ensures this.waterConsumption == waterConsumption && totalAmount == 0.0
    {
      this.waterConsumption := waterConsumption;
      totalAmount := 0.0;
    }

    /** The price of the recorded consumption for an apartment with
        `registeredPeople` residents. */
    method CalculateTotalAmount(registeredPeople: nat) returns (amount: real)
      ensures registeredPeople > 0
              ==> amount == WithSurcharge(WaterByBracket(waterConsumption, registeredPeople))
      ensures registeredPeople == 0 ==> amount == WithSurcharge(waterConsumption * WaterOverflowRate)
    {
      var subtotal;
      if registeredPeople > 0 {
        var unbilled;
        subtotal, unbilled := Walk(waterConsumption, WaterTiers(registeredPeople), WaterOverflowRate);
        WaterClosedForm(waterConsumption, registeredPeople);
      } else {
        subtotal := waterConsumption * WaterOverflowRate;
      }
      amount := WithSurcharge(subtotal);
    }

    /** Recomputes the amount from the consumption; nothing else changes. */
    method Save(registeredPeople: nat)
      modifies this`totalAmount
      ensures totalAmount == WithSurcharge(WaterSubtotal(waterConsumption, registeredPeople))
    {
      totalAmount := CalculateTotalAmount(registeredPeople);
      if registeredPeople > 0 {
        WaterClosedForm(waterConsumption, registeredPeople);
      }
    }
  }

  /** Five example bills, followed through the classes. */
  method BillingExamples()
  {
    var e := new ElectricityBill(0, 300);
    var outcome := e.Save();
    assert outcome == Saved && e.totalKwh == 300;
    ElectricityClosedForm(300);
    assert e.totalAmount == 688160.0;

    e.currentIndex := 500;
    outcome := e.Save();
    ElectricityClosedForm(500);
    assert e.totalKwh == 500 && e.totalAmount == 1321870.0;

    var bad := new ElectricityBill(100, 50);
    outcome := bad.Save();
    assert outcome == Rejected(IndexOrderMessage);
    assert bad.totalKwh == 0 && bad.totalAmount == 0.0;

    var w := new WaterBill(10);
    w.Save(0);
    assert w.totalAmount == 158400.0;

    var w2 := new WaterBill(20);
    w2.Save(2);
    WaterClosedForm(20, 2);
    assert w2.totalAmount == 242440.0;
  }
}
