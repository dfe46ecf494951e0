/** The financial record of one fiscal year and the ratios every page derives
    from it. Amounts are modelled as exact reals; the ratios divide by the
    revenue, so they are only defined for a positive revenue. */
module Finance {

  /** What a query against the hosted data store hands back: an error, or the data. */
  datatype Fetched<T> = QueryFailed | Fetched(data: T)

  /** One row of the `financial_data` table. */
  datatype FinancialRecord = FinancialRecord(
    year: int,
    revenue: real,
    fixedCosts: real,
    variableCosts: real,
    payroll: real,
    cashFlow: real)

  /** Fixed costs, variable costs and payroll together. */
  function TotalCosts(d: FinancialRecord): real
  {
    d.fixedCosts + d.variableCosts + d.payroll
  }

  /** Share of the revenue left after the variable costs, in percent. */
  function Margin(d: FinancialRecord): real
    requires d.revenue > 0.0
  {
    (d.revenue - d.variableCosts) / d.revenue * 100.0
  }

  /** Total costs as a percentage of the revenue. */
  function CostRatio(d: FinancialRecord): real
    requires d.revenue > 0.0
  {
    TotalCosts(d) / d.revenue * 100.0
  }

  /** The margin and the variable-cost share of the revenue add up to 100 percent. */
  lemma MarginComplement(d: FinancialRecord)
    requires d.revenue > 0.0
    ensures Margin(d) + d.variableCosts / d.revenue * 100.0 == 100.0
  {
    RemainderShare(d.revenue, d.variableCosts);
  }

  /** The share of `r` left after `t` is 100 percent minus the share of `t`. */
  lemma RemainderShare(r: real, t: real)
    requires r > 0.0
    ensures (r - t) / r * 100.0 == 100.0 - t / r * 100.0
  {
    assert (r - t) / r == r / r - t / r;
    assert r / r == 1.0;
  }

  /** A margin threshold in percent is a threshold on the variable costs:
      the margin is below `t` exactly when the variable costs exceed
      `(100 - t)` percent of the revenue. */
  lemma MarginBelow(d: FinancialRecord, t: real)
    requires d.revenue > 0.0
    ensures Margin(d) < t <==> d.variableCosts > (100.0 - t) / 100.0 * d.revenue
    ensures Margin(d) > t <==> d.variableCosts < (100.0 - t) / 100.0 * d.revenue
  {
    MarginComplement(d);
    RatioScale(d.variableCosts, d.revenue, 100.0 - t);
  }

  /** A cost-ratio threshold in percent is a threshold on the total costs. */
  lemma CostRatioAbove(d: FinancialRecord, t: real)
    requires d.revenue > 0.0
    ensures CostRatio(d) > t <==> TotalCosts(d) > t / 100.0 * d.revenue
    ensures CostRatio(d) < t <==> TotalCosts(d) < t / 100.0 * d.revenue
  {
    RatioScale(TotalCosts(d), d.revenue, t);
  }

  /** `x / r * 100` compared with a percentage `p` is `x` compared with `p / 100 * r`. */
  lemma RatioScale(x: real, r: real, p: real)
    requires r > 0.0
    ensures x / r * 100.0 > p <==> x > p / 100.0 * r
    ensures x / r * 100.0 < p <==> x < p / 100.0 * r
  {
    assert x / r * 100.0 * r == x * 100.0;
    assert p / 100.0 * r * 100.0 == p * r;
  }
}
