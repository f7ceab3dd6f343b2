/**
  The whole calculation block of the calculator (streamlit_app.py lines
  28-45 and 63): from the client's monthly usage and bill and the grant
  percentage to the recommended system, its cost, the first-year savings,
  the payback period and the cumulative-savings chart.
 */
module Calculator {
  import Sizing
  import Tiers
  import Pricing
  import Savings
  import Projection

  /** The values the input widgets supply: monthly usage in kWh, monthly
      bill in EUR and the grant in whole percent. */
  datatype Inputs = Inputs(usage: int, bill: int, grantPercent: int)

  /** The widget ranges: usage and bill at least 1, grant from 0 to 50 percent. */
  predicate ValidInputs(inputs: Inputs) {
    && Sizing.ValidUsage(inputs.usage)
    && inputs.bill >= 1
    && Pricing.ValidGrantPercent(inputs.grantPercent)
  }

  /** Everything the calculation produces for display. */
  datatype Quote = Quote(
    system: Sizing.System,
    cost: Pricing.Cost,
    savings: Savings.FirstYear,
    outlook: Projection.Outlook)

  function Calculate(inputs: Inputs): (q: Quote)
    requires ValidInputs(inputs)
    ensures q.system.solarKw > 0.0 && q.system.batteryKwh == Sizing.BatteryRatio * q.system.solarKw
    ensures q.system.solarKw * Sizing.SpecificYield == Sizing.SolarCoverage * Sizing.AnnualUsage(inputs.usage)
    ensures q.cost.solarUnitPrice == Tiers.PriceFor(Pricing.SolarTable(), q.system.solarKw)
    ensures q.cost.batteryUnitPrice == Tiers.PriceFor(Pricing.BatteryTable(), q.system.batteryKwh)
    ensures Pricing.ChargedAtTierPrices(q.system.solarKw, q.system.batteryKwh, q.cost.gross)
    ensures q.cost.gross > 0.0 && 0.5 * q.cost.gross <= q.cost.net <= q.cost.gross
    ensures Pricing.DeductsPercent(q.cost.gross, q.cost.net, inputs.grantPercent)
    ensures q.cost.net == q.cost.gross <==> inputs.grantPercent == 0
    ensures q.savings.solar == Sizing.SolarCoverage * Sizing.MonthsPerYear
                               * (inputs.bill as real + Savings.GridFeeSaving * inputs.usage as real)
    ensures q.savings.battery == 19.04 * q.system.batteryKwh
    ensures q.savings.Total() > 0.0
    ensures q.outlook.payback == Projection.Payback(q.cost.net, q.savings.Total()) >= 0.0
    ensures |q.outlook.chart| >= 2
    ensures q.outlook.chart[|q.outlook.chart| - 1].cumulative > q.cost.net
    ensures q.outlook.chart == Projection.YearlySeries(q.savings.Total(), q.outlook.payback)
  {
    var system := Sizing.Recommend(inputs.usage);
    var cost := Pricing.CostOf(system, inputs.grantPercent);
    var savings := Savings.FirstYearOf(system, Savings.UnitPrice(inputs.bill, inputs.usage));
    Savings.SolarSavingsShareOfBill(inputs.usage, inputs.bill);
    Quote(system, cost, savings, Projection.OutlookOf(cost.net, savings.Total()))
  }

  /** The bill affects only the savings: with usage and grant fixed, a
      higher bill gives the same investment and a strictly shorter payback. */
  lemma PaybackShorterWithHigherBill(usage: int, grantPercent: int, lower: int, higher: int)
    requires ValidInputs(Inputs(usage, lower, grantPercent)) && lower < higher
    ensures Calculate(Inputs(usage, higher, grantPercent)).cost
            == Calculate(Inputs(usage, lower, grantPercent)).cost
    ensures Calculate(Inputs(usage, higher, grantPercent)).outlook.payback
            < Calculate(Inputs(usage, lower, grantPercent)).outlook.payback
  {
    var ql := Calculate(Inputs(usage, lower, grantPercent));
    var qh := Calculate(Inputs(usage, higher, grantPercent));
    assert ql.savings.battery == qh.savings.battery;
    assert ql.savings.Total() < qh.savings.Total();
    Projection.PaybackShorterWithMoreSavings(ql.cost.net, ql.savings.Total(), qh.savings.Total());
  }

  /** Closed form of the first-year savings: 4.8 times the monthly bill
      (40% of the annual bill) plus 0.353088 EUR per monthly kWh, of which
      0.216 is the grid fee on the solar share and 0.137088 the battery
      arbitrage on 0.0072 kWh of storage per monthly kWh. */
  lemma AnnualSavingsClosedForm(inputs: Inputs)
    requires ValidInputs(inputs)
    ensures Calculate(inputs).savings.battery == 0.137088 * inputs.usage as real
    ensures Calculate(inputs).savings.Total() == 4.8 * inputs.bill as real + 0.353088 * inputs.usage as real
  {
    var q := Calculate(inputs);
    assert q.system.batteryKwh == 0.0072 * inputs.usage as real;
    assert q.savings.battery == Savings.BatterySavings(q.system.batteryKwh);
  }

  /** Worked example with the widgets' default values: 19000 kWh, 3100 EUR
      and a 30% grant. */
  lemma DefaultInputsExample()
    ensures var q := Calculate(Inputs(19000, 3100, 30));
      && q.system == Sizing.System(91.2, 136.8)
      && q.cost == Pricing.Cost(750.0, 245.0, 101916.0, 71341.2)
      && q.savings == Savings.FirstYear(18984.0, 2604.672)
  {
    var q := Calculate(Inputs(19000, 3100, 30));
    assert q.system == Sizing.System(91.2, 136.8);
    assert q.cost == Pricing.Cost(750.0, 245.0, 101916.0, 71341.2);
  }

  /** With the default values the investment is repaid in the fourth year,
      and the chart shows five years, ending at five years of savings. */
  lemma DefaultOutlookExample()
    ensures var q := Calculate(Inputs(19000, 3100, 30));
      && 3.0 < q.outlook.payback < 4.0
      && |q.outlook.chart| == 5
      && q.outlook.chart[4] == Projection.YearPoint(5, 107943.36)
  {
    DefaultInputsExample();
    var q := Calculate(Inputs(19000, 3100, 30));
    assert q.outlook.payback * 21588.672 == 71341.2;
    assert 3.0 < q.outlook.payback < 4.0;
    assert (q.outlook.payback + 3.0).Floor == 6;
  }
}
