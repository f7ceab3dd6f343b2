# Solar and battery ROI calculator: a Dafny model of the calculation core

The calculator takes three inputs: a client's average monthly electricity
usage (kWh), their monthly bill (EUR) and a state-grant percentage. From them
it recommends a photovoltaic system and a battery, prices both, deducts the
grant and estimates the first-year savings. It then reports the payback
period and draws a chart of cumulative savings. This project models that
calculation with exact `real` arithmetic as pure functions and proves its
properties:

- `Sizing` (sizing.dfy): the flat 40%-coverage rule. The panels produce 40%
  of the annual consumption at 1000 kWh per installed kW. The battery is
  1.5 kWh per solar kW.
- `Tiers` (tiers.dfy): a generic tiered price list. Each tier has an
  exclusive upper bound, and the last tier is unbounded. For any well-formed
  list, the unit price never rises as capacity grows. This list is the
  reference meaning of the calculator's inline price conditionals.
- `Pricing` (pricing.dfy): the solar and battery price tiers, the gross cost
  and the grant deduction.
- `Savings` (savings.dfy): the solar savings (electricity price plus the
  0.045 EUR/kWh grid fee) and the battery arbitrage income
  (280 cycles × 0.08 EUR × 0.85 efficiency per kWh).
- `Projection` (projection.dfy): the payback period and the
  cumulative-savings chart. Python's `int()` is modelled as truncation toward
  zero.
- `Calculator` (calculator.dfy): the whole pipeline from the widget values to
  a `Quote`, with the widgets' ranges as preconditions. These ranges are
  usage ≥ 1, bill ≥ 1 and a whole grant percentage from 0 to 50.

Three features of the code shape the model:

- The battery unit price is chosen from the battery's own capacity. It does
  not depend on the solar tier.
- The grant is a whole percentage from 0 to 50, taken from a slider, and is
  deducted from the gross cost of every client.
- The chart is a straight line. Year i shows i times the first-year savings,
  for i from 1 up to, but excluding, int(payback + 3).

## Model

| member | source | states |
|---|---|---|
| Sizing.SolarCapacity | streamlit_app.py:29 | solar capacity is strictly positive, and at 1000 kWh per kW it produces exactly 40% of the annual (12-month) consumption |
| Sizing.BatteryCapacity | streamlit_app.py:30 | battery capacity divided by solar capacity is exactly 1.5, so the battery (kWh) exceeds the solar (kW) figure |
| Sizing.Recommend | streamlit_app.py:29-30 | the recommended system has positive solar and battery capacities, covers 40% of annual usage and keeps the fixed 1.5 ratio |
| Sizing.SizingRoundTrip | streamlit_app.py:29 | sizing is invertible: the usage a capacity is sized for gives back the original monthly usage |
| Sizing.SolarCapacityAdditive | streamlit_app.py:29 | the sizing rule is linear with no offset: capacity for a + b equals capacity for a plus capacity for b |
| Sizing.SizingStrictlyIncreasing | streamlit_app.py:29-30 | more monthly usage gives strictly more solar and strictly more battery capacity |
| Sizing.SizingExample | streamlit_app.py:29-30 | 19000 kWh a month gives 91.2 kW of solar and 136.8 kWh of battery |
| Tiers.PriceIsFirstCoveringTier | streamlit_app.py:33-34 | a tiered price list charges the price of the first tier whose exclusive bound lies above the capacity, or the last tier's price when none does |
| Tiers.PriceNonIncreasing | streamlit_app.py:33-34 | in every well-formed tier list (non-increasing prices) a larger capacity is never charged a higher unit price |
| Pricing.SolarUnitPrice | streamlit_app.py:33 | solar costs 1100 per kW exactly below 15 kW, 900 exactly from 15 up to 40 kW, 750 exactly from 40 kW |
| Pricing.BatteryUnitPrice | streamlit_app.py:34 | battery costs 500 per kWh exactly below 20 kWh, 380 exactly from 20 up to 100 kWh, 245 exactly from 100 kWh |
| Pricing.PricesFollowTierTables | streamlit_app.py:33-34 | both price lists are well-formed tier lists, and the inline conditionals charge exactly what those lists charge for every capacity |
| Pricing.UnitPricesNonIncreasing | streamlit_app.py:33-34 | economy of scale: neither unit price rises when capacity grows |
| Pricing.TiersByUsage | streamlit_app.py:29-34 | in terms of monthly usage, the solar tiers change at 3125 and above 8333 kWh and the battery tiers above 2777 and above 13888 kWh, independently of each other |
| Pricing.SolarBoundaryExample | streamlit_app.py:33 | exactly 15 kW (3125 kWh a month) is priced at 900, not 1100: the bound is exclusive |
| Pricing.GrossCost | streamlit_app.py:33-36 | the gross cost is the solar capacity times its tier-table price plus the battery capacity times its own tier-table price; it therefore lies between the cheapest-tier and the dearest-tier cost of the same system, and is positive when there is any solar |
| Pricing.GrossCostDropsAtSolarBoundary | streamlit_app.py:29-36 | the gross cost is not monotone in usage: 3125 kWh a month costs less than 3124 kWh because of the solar tier change |
| Pricing.GrossCostExample | streamlit_app.py:36 | 91.2 kW and 136.8 kWh cost 91.2·750 + 136.8·245 = 101916 |
| Pricing.GrantFraction | streamlit_app.py:22 | the slider's whole percentage becomes a fraction from 0 to 0.5 that is one hundredth of it |
| Pricing.NetInvestment | streamlit_app.py:37 | the deducted amount is gross times the grant fraction, the net lies between half the gross and the gross, and it equals the gross exactly when the grant is zero |
| Pricing.GrantDeduction | streamlit_app.py:37 | for a positive gross cost and a slider percentage, the net investment is the gross less exactly that percentage of it, lies between half the gross and the gross, and equals the gross exactly when the percentage is zero |
| Pricing.CostOf | streamlit_app.py:33-37 | the solar unit price is the solar tier-table price for the solar capacity, and the battery unit price is the battery tier-table price for the battery capacity; the gross is each capacity times its own tier-table price, summed, and is positive; the net is the gross less exactly the grant percentage, between half the gross and the gross, and equal to it exactly when there is no grant |
| Pricing.NetInvestmentDecreasesWithGrant | streamlit_app.py:37 | a larger grant percentage gives a strictly smaller net investment |
| Savings.UnitPrice | streamlit_app.py:41 | the client's average price is positive and multiplied by the usage gives back the bill |
| Savings.SolarSavings | streamlit_app.py:41 | solar savings are at least the grid-fee saving on the yearly production, and positive for any installed solar |
| Savings.BatterySavings | streamlit_app.py:43 | every kWh of storage earns 19.04 EUR of arbitrage a year (280 × 0.08 × 0.85), so the income is positive for any installed battery |
| Savings.FirstYearOf | streamlit_app.py:41-44 | the solar part is the yearly production valued at the electricity price plus the grid fee, the battery part is 19.04 EUR per kWh of storage, and the total is positive |
| Savings.SolarSavingsShareOfBill | streamlit_app.py:29-41 | for the recommended system, solar savings are exactly 40% of the annual bill plus the grid fee on 40% of the annual usage |
| Projection.Payback | streamlit_app.py:45 | the payback period times the annual savings gives back the net investment, and it is non-negative for positive savings |
| Projection.PaybackShorterWithMoreSavings | streamlit_app.py:45 | for the same investment, larger annual savings give a strictly shorter payback |
| Projection.Trunc | streamlit_app.py:63 | Python's int() truncates toward zero: the floor for non-negative values and the ceiling for negative ones |
| Projection.YearlySeries | streamlit_app.py:63 | the chart has one point per year 1 .. int(payback + 3) - 1, numbered consecutively from 1, and is empty when that range is empty |
| Projection.CumulativeIsProduct | streamlit_app.py:63 | summing the same annual savings over n years gives n times the annual savings |
| Projection.SeriesIsCumulative | streamlit_app.py:63 | every chart value is the savings accumulated over the years up to and including its year |
| Projection.SeriesShape | streamlit_app.py:63 | for a non-negative payback the chart has floor(payback + 3) - 1 ≥ 2 points, and its last year lies more than a year beyond the payback |
| Projection.SeriesStrictlyIncreasing | streamlit_app.py:63 | with positive savings the chart values rise strictly from year to year |
| Projection.SeriesReachesBreakEven | streamlit_app.py:63 | a chart point has repaid the investment exactly when its year is at least the payback period, and the last point always has |
| Projection.BreakEvenAt | streamlit_app.py:45 | after a number of years of constant savings the investment is repaid exactly when that number is at least the payback period, and more than repaid exactly when it is beyond it |
| Projection.OutlookOf | streamlit_app.py:45-63 | the payback is the net investment over the annual savings and is non-negative; the chart is exactly the yearly series for that payback, has at least two points, and its last point exceeds the net investment |
| Calculator.Calculate | streamlit_app.py:28-63 | for every widget-valid input: the solar capacity is positive and produces 40% of annual usage, with the battery at 1.5 kWh per kW; each unit price is its own tier-table price and the gross is each capacity times its price, summed; the net is the gross less exactly the grant percentage (between half of it and all of it, and equal iff no grant); solar savings are 40% of the annual bill plus the grid fee on 40% of annual usage, and the battery earns 19.04 EUR per kWh; the payback is the net over the positive total savings and is non-negative; the chart is the yearly series for that payback, has at least two points and ends above the net investment |
| Calculator.PaybackShorterWithHigherBill | streamlit_app.py:41-45 | with usage and grant fixed, a higher bill leaves the cost unchanged and strictly shortens the payback |
| Calculator.AnnualSavingsClosedForm | streamlit_app.py:29-44 | first-year savings equal 4.8 × monthly bill + 0.353088 × monthly usage, of which the battery contributes 0.137088 × monthly usage |
| Calculator.DefaultInputsExample | streamlit_app.py:14-44 | the default inputs (19000 kWh, 3100 EUR, 30%) give 91.2 kW, 136.8 kWh, unit prices 750 and 245, gross 101916, net 71341.2 and savings 18984 + 2604.672 |
| Calculator.DefaultOutlookExample | streamlit_app.py:14-63 | for the default inputs the payback lies between 3 and 4 years and the chart has five points, the last being year 5 at 107943.36 |

## Left out

- The Streamlit page, form, columns, sidebar, metrics, number formatting,
  captions and the area chart itself (streamlit_app.py:1-24, 47-66). These
  are presentation only. The widget ranges appear as preconditions.
- The chart's point labels (`"{i}. gads"`) are modelled as year numbers.
  The label text is not modelled.
- The monthly-savings figure shown at line 60 (annual savings / 12). It is a
  display value that nothing else uses.
- The guard `if submit_button or usage:` (line 27). It is always true because
  usage ≥ 1.
- The loan interest and term (lines 23-24). The code reads them but never
  uses them, so no financing engine is modelled.
- Floating-point rounding. The model uses exact rational arithmetic, so
  values such as 91.2 kW are exact here. In the program they are the nearest
  doubles.
