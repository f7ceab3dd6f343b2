/**
  Tiered unit prices, gross system cost and the grant deduction
  (streamlit_app.py lines 22 and 33-37).
 */
module Pricing {
  import Tiers
  import Sizing

  /** Solar price per kW: 1100 below 15 kW, 900 below 40 kW, 750 from 40 kW on. */
  function SolarUnitPrice(solarKw: real): (price: real)
    ensures price == 1100.0 <==> solarKw < 15.0
    ensures price == 900.0 <==> 15.0 <= solarKw < 40.0
    ensures price == 750.0 <==> 40.0 <= solarKw
  {
    if solarKw < 15.0 then 1100.0 else if solarKw < 40.0 then 900.0 else 750.0
  }

  /** Battery price per kWh, chosen from the battery's own capacity:
      500 below 20 kWh, 380 below 100 kWh, 245 from 100 kWh on. */
  function BatteryUnitPrice(batteryKwh: real): (price: real)
    ensures price == 500.0 <==> batteryKwh < 20.0
    ensures price == 380.0 <==> 20.0 <= batteryKwh < 100.0
    ensures price == 245.0 <==> 100.0 <= batteryKwh
  {
    if batteryKwh < 20.0 then 500.0 else if batteryKwh < 100.0 then 380.0 else 245.0
  }

  /** The solar price list as a tier table. */
  function SolarTable(): Tiers.Table {
    Tiers.Table([Tiers.Tier(15.0, 1100.0), Tiers.Tier(40.0, 900.0)], 750.0)
  }

  /** The battery price list as a tier table. */
  function BatteryTable(): Tiers.Table {
    Tiers.Table([Tiers.Tier(20.0, 500.0), Tiers.Tier(100.0, 380.0)], 245.0)
  }

  /** Both price lists are well-formed tier tables, and the inline price
      conditionals charge exactly what those tables charge. */
  lemma PricesFollowTierTables(solarKw: real, batteryKwh: real)
    ensures Tiers.WellFormed(SolarTable()) && Tiers.WellFormed(BatteryTable())
    ensures SolarUnitPrice(solarKw) == Tiers.PriceFor(SolarTable(), solarKw)
    ensures BatteryUnitPrice(batteryKwh) == Tiers.PriceFor(BatteryTable(), batteryKwh)
  {
    Tiers.PriceIsFirstCoveringTier(SolarTable(), solarKw);
    Tiers.PriceIsFirstCoveringTier(BatteryTable(), batteryKwh);
    if solarKw >= 15.0 && solarKw < 40.0 {
      assert Tiers.FirstCovering(SolarTable(), solarKw, 1);
    }
    if batteryKwh >= 20.0 && batteryKwh < 100.0 {
      assert Tiers.FirstCovering(BatteryTable(), batteryKwh, 1);
    }
  }

  /** Economy of scale: neither unit price rises when the capacity grows. */
  lemma UnitPricesNonIncreasing(small: real, large: real)
    requires small <= large
    ensures SolarUnitPrice(large) <= SolarUnitPrice(small)
    ensures BatteryUnitPrice(large) <= BatteryUnitPrice(small)
  {
    PricesFollowTierTables(small, small);
    PricesFollowTierTables(large, large);
    Tiers.PriceNonIncreasing(SolarTable(), small, large);
    Tiers.PriceNonIncreasing(BatteryTable(), small, large);
  }

  /** The tier boundaries in terms of monthly usage: solar leaves the first
      tier at 3125 kWh and the second above 8333 kWh; the battery leaves its
      first tier above 2777 kWh and its second above 13888 kWh. The two tiers
      are chosen independently, so 2778 to 3124 kWh pays the top solar price
      together with the middle battery price. */
  lemma TiersByUsage(usage: int)
    requires Sizing.ValidUsage(usage)
    ensures SolarUnitPrice(Sizing.SolarCapacity(usage)) == 1100.0 <==> usage < 3125
    ensures SolarUnitPrice(Sizing.SolarCapacity(usage)) == 750.0 <==> usage > 8333
    ensures BatteryUnitPrice(Sizing.BatteryCapacity(Sizing.SolarCapacity(usage))) == 500.0 <==> usage <= 2777
    ensures BatteryUnitPrice(Sizing.BatteryCapacity(Sizing.SolarCapacity(usage))) == 245.0 <==> usage > 13888
  {
    var kw := Sizing.SolarCapacity(usage);
    assert kw == usage as real * 0.0048;
    assert Sizing.BatteryCapacity(kw) == usage as real * 0.0072;
  }

  /** Exactly 15 kW falls in the middle solar tier (the bounds are exclusive). */
  lemma SolarBoundaryExample()
    ensures SolarUnitPrice(15.0) == 900.0
    ensures SolarUnitPrice(Sizing.SolarCapacity(3125)) == 900.0
  {
  }

  /** `cost` is each capacity charged at its own tier-table unit price. */
  predicate ChargedAtTierPrices(solarKw: real, batteryKwh: real, cost: real) {
    cost == solarKw * Tiers.PriceFor(SolarTable(), solarKw)
            + batteryKwh * Tiers.PriceFor(BatteryTable(), batteryKwh)
  }

  /** Gross cost of the system before any grant. */
  function GrossCost(solarKw: real, batteryKwh: real): (cost: real)
    requires solarKw >= 0.0 && batteryKwh >= 0.0
    ensures 750.0 * solarKw + 245.0 * batteryKwh <= cost <= 1100.0 * solarKw + 500.0 * batteryKwh
    ensures solarKw > 0.0 ==> cost > 0.0
    ensures ChargedAtTierPrices(solarKw, batteryKwh, cost)
  {
    PricesFollowTierTables(solarKw, batteryKwh);
    solarKw * SolarUnitPrice(solarKw) + batteryKwh * BatteryUnitPrice(batteryKwh)
  }

  /** The gross cost is not monotone in usage: at a tier boundary a larger
      system can cost less than a slightly smaller one. */
  lemma GrossCostDropsAtSolarBoundary()
    ensures GrossCost(Sizing.SolarCapacity(3125), Sizing.BatteryCapacity(Sizing.SolarCapacity(3125)))
          < GrossCost(Sizing.SolarCapacity(3124), Sizing.BatteryCapacity(Sizing.SolarCapacity(3124)))
  {
    assert Sizing.SolarCapacity(3124) == 14.9952;
    assert Sizing.SolarCapacity(3125) == 15.0;
  }

  /** Worked example: 91.2 kW and 136.8 kWh are both in the cheapest tier. */
  lemma GrossCostExample()
    ensures GrossCost(91.2, 136.8) == 101916.0
  {
  }

  /** The grant slider offers whole percentages from 0 to 50. */
  predicate ValidGrantPercent(percent: int) {
    0 <= percent <= 50
  }

  /** The grant as a fraction of the gross cost. */
  function GrantFraction(percent: int): (fraction: real)
    requires ValidGrantPercent(percent)
    ensures 0.0 <= fraction <= 0.5
    ensures fraction * 100.0 == percent as real
  {
    percent as real / 100.0
  }

  /** The client's own investment once the grant is deducted. */
  function NetInvestment(grossCost: real, grantFraction: real): (net: real)
    requires 0.0 <= grantFraction <= 0.5
    ensures grossCost - net == grossCost * grantFraction
    ensures grossCost >= 0.0 ==> 0.5 * grossCost <= net <= grossCost
    ensures grossCost > 0.0 ==> (net == grossCost <==> grantFraction == 0.0)
  {
    grossCost * (1.0 - grantFraction)
  }

  /** `net` is what remains of `gross` once exactly `percent` percent of it
      has been deducted. */
  predicate DeductsPercent(gross: real, net: real, percent: int) {
    (gross - net) * 100.0 == gross * percent as real
  }

  /** Deducting a whole-percentage grant from a positive gross cost removes
      exactly that percentage of it. */
  lemma GrantDeduction(grossCost: real, percent: int)
    requires grossCost > 0.0 && ValidGrantPercent(percent)
    ensures DeductsPercent(grossCost, NetInvestment(grossCost, GrantFraction(percent)), percent)
    ensures 0.5 * grossCost <= NetInvestment(grossCost, GrantFraction(percent)) <= grossCost
    ensures NetInvestment(grossCost, GrantFraction(percent)) == grossCost <==> percent == 0
  {
    var fraction := GrantFraction(percent);
    var net := NetInvestment(grossCost, fraction);
    assert (grossCost - net) * 100.0 == grossCost * (fraction * 100.0);
  }

  /** The price breakdown of a system: both unit prices, the gross cost and
      the net investment after the grant. */
  datatype Cost = Cost(solarUnitPrice: real, batteryUnitPrice: real, gross: real, net: real)

  function CostOf(system: Sizing.System, grantPercent: int): (c: Cost)
    requires system.solarKw > 0.0 && system.batteryKwh >= 0.0
    requires ValidGrantPercent(grantPercent)
    ensures c.solarUnitPrice == Tiers.PriceFor(SolarTable(), system.solarKw)
    ensures c.batteryUnitPrice == Tiers.PriceFor(BatteryTable(), system.batteryKwh)
    ensures ChargedAtTierPrices(system.solarKw, system.batteryKwh, c.gross)
    ensures c.gross > 0.0
    ensures DeductsPercent(c.gross, c.net, grantPercent)
    ensures 0.5 * c.gross <= c.net <= c.gross
    ensures c.net == c.gross <==> grantPercent == 0
  {
    PricesFollowTierTables(system.solarKw, system.batteryKwh);
    GrantDeduction(GrossCost(system.solarKw, system.batteryKwh), grantPercent);
    Cost(SolarUnitPrice(system.solarKw), BatteryUnitPrice(system.batteryKwh),
         GrossCost(system.solarKw, system.batteryKwh),
         NetInvestment(GrossCost(system.solarKw, system.batteryKwh), GrantFraction(grantPercent)))
  }

  /** A larger grant strictly lowers the net investment. */
  lemma NetInvestmentDecreasesWithGrant(grossCost: real, lower: int, higher: int)
    requires grossCost > 0.0
    requires ValidGrantPercent(lower) && ValidGrantPercent(higher) && lower < higher
    ensures NetInvestment(grossCost, GrantFraction(higher)) < NetInvestment(grossCost, GrantFraction(lower))
  {
    var lo, hi := GrantFraction(lower), GrantFraction(higher);
    assert lo < hi;
    assert grossCost * hi - grossCost * lo == grossCost * (hi - lo) > 0.0;
  }
}
