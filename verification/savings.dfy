/**
  First-year savings (streamlit_app.py lines 41-44):
  the panels save the electricity price plus the variable grid fee on every
  kWh they produce, and the battery earns a price-arbitrage income.
 */
module Savings {
  import Sizing

  /** Variable grid-distribution fee avoided per self-consumed kWh, in EUR. */
  const GridFeeSaving: real := 0.045
  /** Full charge-discharge cycles of the battery per year. */
  const BatteryCyclesPerYear: real := 280.0
  /** Price spread, in EUR per kWh, between charging and discharging. */
  const ArbitrageSpread: real := 0.08
  /** Round-trip efficiency of the battery. */
  const RoundTripEfficiency: real := 0.85

  /** The client's average electricity price: bill divided by usage. */
  function UnitPrice(bill: int, usage: int): (price: real)
    requires Sizing.ValidUsage(usage) && bill >= 1
    ensures price > 0.0
    ensures price * usage as real == bill as real
  {
    bill as real / usage as real
  }

  /** Yearly value of the solar production. */
  function SolarSavings(solarKw: real, unitPrice: real): (eur: real)
    requires solarKw >= 0.0 && unitPrice >= 0.0
    ensures eur >= solarKw * Sizing.SpecificYield * GridFeeSaving
    ensures solarKw > 0.0 ==> eur > 0.0
  {
    (solarKw * Sizing.SpecificYield) * (unitPrice + GridFeeSaving)
  }

  /** Yearly arbitrage income of the battery: every kWh of storage earns
      19.04 EUR a year (280 cycles at a 0.08 EUR spread, 85% efficient). */
  function BatterySavings(batteryKwh: real): (eur: real)
    requires batteryKwh >= 0.0
    ensures eur == 19.04 * batteryKwh
    ensures batteryKwh > 0.0 ==> eur > 0.0
  {
    batteryKwh * BatteryCyclesPerYear * ArbitrageSpread * RoundTripEfficiency
  }

  /** First-year savings, split into the solar and the battery part. */
  datatype FirstYear = FirstYear(solar: real, battery: real) {
    function Total(): real {
      solar + battery
    }
  }

  function FirstYearOf(system: Sizing.System, unitPrice: real): (f: FirstYear)
    requires system.solarKw > 0.0 && system.batteryKwh >= 0.0 && unitPrice >= 0.0
    ensures f.solar > 0.0 && f.battery >= 0.0 && f.Total() > 0.0
    ensures f.solar == SolarSavings(system.solarKw, unitPrice)
    ensures f.battery == 19.04 * system.batteryKwh
  {
    FirstYear(SolarSavings(system.solarKw, unitPrice), BatterySavings(system.batteryKwh))
  }

  /** Because the panels are sized to 40% of consumption, their savings are
      40% of the annual bill plus the grid fee on 40% of the annual usage. */
  lemma SolarSavingsShareOfBill(usage: int, bill: int)
    requires Sizing.ValidUsage(usage) && bill >= 1
    ensures SolarSavings(Sizing.SolarCapacity(usage), UnitPrice(bill, usage))
            == Sizing.SolarCoverage * Sizing.MonthsPerYear * (bill as real + GridFeeSaving * usage as real)
  {
    var kw := Sizing.SolarCapacity(usage);
    var p := UnitPrice(bill, usage);
    assert kw * Sizing.SpecificYield == 4.8 * usage as real;
    calc {
      SolarSavings(kw, p);
      4.8 * usage as real * (p + GridFeeSaving);
      4.8 * (p * usage as real) + 4.8 * GridFeeSaving * usage as real;
      4.8 * bill as real + 4.8 * GridFeeSaving * usage as real;
    }
  }
}
