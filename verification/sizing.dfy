/**
  System sizing (streamlit_app.py lines 29-30): the flat 40%-coverage rule
  for solar capacity and a fixed 1.5 battery-to-solar ratio.
 */
module Sizing {

  const MonthsPerYear: real := 12.0
  /** Share of the annual consumption the panels are sized to cover. */
  const SolarCoverage: real := 0.4
  /** Annual yield of one installed kW, in kWh; used for sizing and for savings. */
  const SpecificYield: real := 1000.0
  /** Battery kWh installed per solar kW. */
  const BatteryRatio: real := 1.5

  /** Monthly usage comes from an integer widget with minimum 1 kWh. */
  predicate ValidUsage(usage: int) {
    usage >= 1
  }

  function AnnualUsage(usage: int): (kwh: real)
    requires ValidUsage(usage)
    ensures kwh >= MonthsPerYear
  {
    usage as real * MonthsPerYear
  }

  /** Recommended solar capacity in kW: the panels produce 40% of the annual
      consumption. */
  function SolarCapacity(usage: int): (kw: real)
    requires ValidUsage(usage)
    ensures kw > 0.0
    ensures kw * SpecificYield == SolarCoverage * AnnualUsage(usage)
  {
    (usage as real * MonthsPerYear * SolarCoverage) / SpecificYield
  }

  /** Recommended battery capacity in kWh for a given solar capacity. */
  function BatteryCapacity(solarKw: real): (kwh: real)
    ensures solarKw > 0.0 ==> kwh > solarKw
    ensures solarKw > 0.0 ==> kwh / solarKw == BatteryRatio
  {
    solarKw * BatteryRatio
  }

  /** A recommended system: solar capacity in kW and battery capacity in kWh. */
  datatype System = System(solarKw: real, batteryKwh: real)

  /** The recommended system for a monthly usage. */
  function Recommend(usage: int): (s: System)
    requires ValidUsage(usage)
    ensures s.solarKw > 0.0 && s.batteryKwh > 0.0
    ensures s.solarKw * SpecificYield == SolarCoverage * AnnualUsage(usage)
    ensures s.batteryKwh == BatteryRatio * s.solarKw
  {
    var solar := SolarCapacity(usage);
    System(solar, BatteryCapacity(solar))
  }

  /** The monthly usage a given solar capacity is sized for: the inverse of sizing. */
  function UsageFor(solarKw: real): real {
    solarKw * SpecificYield / (MonthsPerYear * SolarCoverage)
  }

  lemma SizingRoundTrip(usage: int)
    requires ValidUsage(usage)
    ensures UsageFor(SolarCapacity(usage)) == usage as real
  {
  }

  /** Solar capacity is additive in usage (a linear rule with no offset). */
  lemma SolarCapacityAdditive(a: int, b: int)
    requires ValidUsage(a) && ValidUsage(b)
    ensures SolarCapacity(a + b) == SolarCapacity(a) + SolarCapacity(b)
  {
  }

  /** More consumption always gives strictly more solar and more battery. */
  lemma SizingStrictlyIncreasing(a: int, b: int)
    requires ValidUsage(a) && a < b
    ensures SolarCapacity(a) < SolarCapacity(b)
    ensures BatteryCapacity(SolarCapacity(a)) < BatteryCapacity(SolarCapacity(b))
  {
  }

  /** Worked example: 19000 kWh a month gives 91.2 kW of solar and 136.8 kWh of storage. */
  lemma SizingExample()
    ensures SolarCapacity(19000) == 91.2
    ensures BatteryCapacity(SolarCapacity(19000)) == 136.8
  {
  }
}
