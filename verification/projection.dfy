/**
  The payback period (streamlit_app.py line 45) and the cumulative-savings
  chart (line 63): one point per year i = 1, 2, ... up to, but excluding,
  int(payback + 3), each holding the savings accumulated by the end of year i.
 */
module Projection {

  /** Years needed for the first-year savings to repay the net investment.
      The division requires a non-zero divisor (Python raises otherwise). */
  function Payback(netInvestment: real, annualSavings: real): (years: real)
    requires annualSavings != 0.0
    ensures years * annualSavings == netInvestment
    ensures annualSavings > 0.0 && netInvestment >= 0.0 ==> years >= 0.0
  {
    netInvestment / annualSavings
  }

  /** For the same investment, larger savings repay it strictly sooner. */
  lemma PaybackShorterWithMoreSavings(netInvestment: real, less: real, more: real)
    requires netInvestment > 0.0 && 0.0 < less < more
    ensures Payback(netInvestment, more) < Payback(netInvestment, less)
  {
    var pl, pm := Payback(netInvestment, less), Payback(netInvestment, more);
    assert pl > 0.0;
    var gap := pl - pm;
    assert gap * more == pl * (more - less) > 0.0;
    assert gap > 0.0;
  }

  /** Python's int() applied to a float: truncation toward zero. */
  function Trunc(x: real): (n: int)
    ensures 0.0 <= x ==> 0 <= n && n as real <= x < n as real + 1.0
    ensures x < 0.0 ==> n <= 0 && n as real - 1.0 < x <= n as real
  {
    if x >= 0.0 then x.Floor else -((-x).Floor)
  }

  /** One chart point: a year number and the savings accumulated by its end. */
  datatype YearPoint = YearPoint(year: int, cumulative: real)

  /** The chart points for `range(1, int(payback + 3))`; the range is empty
      when its end is at most 1. */
  function YearlySeries(annualSavings: real, payback: real): (points: seq<YearPoint>)
    ensures |points| == if Trunc(payback + 3.0) > 1 then Trunc(payback + 3.0) - 1 else 0
    ensures forall k :: 0 <= k < |points| ==> points[k].year == k + 1
  {
    var end := Trunc(payback + 3.0);
    if end <= 1 then []
    else seq(end - 1, k requires 0 <= k < end - 1 => YearPoint(k + 1, annualSavings * (k + 1) as real))
  }

  /** Reference meaning of a chart value: the same annual savings earned
      once per year, summed over `years` years. */
  function Cumulative(annualSavings: real, years: nat): real {
    if years == 0 then 0.0 else Cumulative(annualSavings, years - 1) + annualSavings
  }

  lemma {:induction false} CumulativeIsProduct(annualSavings: real, years: nat)
    ensures Cumulative(annualSavings, years) == annualSavings * years as real
  {
    if years > 0 {
      CumulativeIsProduct(annualSavings, years - 1);
    }
  }

  /** Every chart value is the savings accumulated over that many years. */
  lemma SeriesIsCumulative(annualSavings: real, payback: real)
    ensures forall k :: 0 <= k < |YearlySeries(annualSavings, payback)| ==>
              YearlySeries(annualSavings, payback)[k].cumulative == Cumulative(annualSavings, k + 1)
  {
    var points := YearlySeries(annualSavings, payback);
    forall k | 0 <= k < |points|
      ensures points[k].cumulative == Cumulative(annualSavings, k + 1)
    {
      CumulativeIsProduct(annualSavings, k + 1);
    }
  }

  /** For a non-negative payback the chart has int(payback + 3) - 1 >= 2
      points and its last year lies more than a year beyond the payback. */
  lemma SeriesShape(annualSavings: real, payback: real)
    requires payback >= 0.0
    ensures |YearlySeries(annualSavings, payback)| == (payback + 3.0).Floor - 1
    ensures |YearlySeries(annualSavings, payback)| >= 2
    ensures YearlySeries(annualSavings, payback)[|YearlySeries(annualSavings, payback)| - 1].year as real
            > payback + 1.0
  {
  }

  /** With positive savings the chart rises strictly from year to year. */
  lemma SeriesStrictlyIncreasing(annualSavings: real, payback: real)
    requires annualSavings > 0.0
    ensures forall i, j :: 0 <= i < j < |YearlySeries(annualSavings, payback)| ==>
              YearlySeries(annualSavings, payback)[i].cumulative < YearlySeries(annualSavings, payback)[j].cumulative
  {
    var points := YearlySeries(annualSavings, payback);
    forall i, j | 0 <= i < j < |points|
      ensures points[i].cumulative < points[j].cumulative
    {
      assert points[j].cumulative - points[i].cumulative == annualSavings * (j - i) as real;
    }
  }

  /** When the payback is the investment divided by positive annual savings,
      a chart point has repaid the investment exactly when its year is at
      least the payback, and the chart's last point always has. */
  lemma SeriesReachesBreakEven(netInvestment: real, annualSavings: real, payback: real)
    requires annualSavings > 0.0 && payback >= 0.0
    requires payback * annualSavings == netInvestment
    ensures forall k :: 0 <= k < |YearlySeries(annualSavings, payback)| ==>
              (YearlySeries(annualSavings, payback)[k].cumulative >= netInvestment
               <==> YearlySeries(annualSavings, payback)[k].year as real >= payback)
    ensures YearlySeries(annualSavings, payback)[|YearlySeries(annualSavings, payback)| - 1].cumulative
            > netInvestment
  {
    var points := YearlySeries(annualSavings, payback);
    forall k | 0 <= k < |points|
      ensures points[k].cumulative >= netInvestment <==> points[k].year as real >= payback
    {
      BreakEvenAt(netInvestment, annualSavings, payback, points[k].year as real, points[k].cumulative);
    }
    SeriesShape(annualSavings, payback);
    var last := |points| - 1;
    BreakEvenAt(netInvestment, annualSavings, payback, points[last].year as real, points[last].cumulative);
  }

  /** After `year` years of savings the investment is repaid exactly when
      `year` is at least the payback period, and more than repaid exactly
      when it is beyond it. */
  lemma BreakEvenAt(netInvestment: real, annualSavings: real, payback: real, year: real, cumulative: real)
    requires annualSavings > 0.0 && payback * annualSavings == netInvestment
    requires cumulative == annualSavings * year
    ensures cumulative >= netInvestment <==> year >= payback
    ensures cumulative > netInvestment <==> year > payback
  {
    assert cumulative - netInvestment == annualSavings * (year - payback);
    if year >= payback {
      assert annualSavings * (year - payback) >= 0.0;
    } else {
      assert annualSavings * (payback - year) > 0.0;
    }
  }

  /** The payback period together with the chart drawn from it. */
  datatype Outlook = Outlook(payback: real, chart: seq<YearPoint>)

  function OutlookOf(netInvestment: real, annualSavings: real): (o: Outlook)
    requires netInvestment >= 0.0 && annualSavings > 0.0
    ensures o.payback == Payback(netInvestment, annualSavings) >= 0.0
    ensures |o.chart| >= 2
    ensures o.chart[|o.chart| - 1].cumulative > netInvestment
    ensures o.chart == YearlySeries(annualSavings, o.payback)
  {
    var payback := Payback(netInvestment, annualSavings);
    SeriesShape(annualSavings, payback);
    SeriesReachesBreakEven(netInvestment, annualSavings, payback);
    Outlook(payback, YearlySeries(annualSavings, payback))
  }
}
