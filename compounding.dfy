/** Monthly compounding shared by the two projection calculators (the server-side one in
    Python and the one in the page script): the revenue of each month is the previous month's
    times one plus the growth rate, the expenses are the same every month. */
module Compounding {
  /** x to the power n. */
  function Pow(x: real, n: nat): real {
    if n == 0 then 1.0 else x * Pow(x, n - 1)
  }

  /** One month's growth: the revenue times one plus the growth rate. */
  function Grow(revenue: real, growth: real): real {
    revenue * (1.0 + growth)
  }

  /** The revenue of month k + 1: the first month's, multiplied by 1 + growth k times. */
  function RevenueAt(base: real, growth: real, k: nat): real {
    if k == 0 then base else Grow(RevenueAt(base, growth, k - 1), growth)
  }

  /** The revenue of the first k months. */
  function RevenueTotal(base: real, growth: real, k: nat): real {
    if k == 0 then 0.0 else RevenueTotal(base, growth, k - 1) + RevenueAt(base, growth, k - 1)
  }

  /** The expenses of the first k months. */
  function ExpensesTotal(expenses: real, k: nat): real {
    if k == 0 then 0.0 else ExpensesTotal(expenses, k - 1) + expenses
  }

  /** The month's revenue is the first month's times (1 + growth) to the power k. */
  lemma {:induction false} RevenueClosedForm(base: real, growth: real, k: nat)
    ensures RevenueAt(base, growth, k) == base * Pow(1.0 + growth, k)
  {
    if k > 0 {
      RevenueClosedForm(base, growth, k - 1);
      assert base * Pow(1.0 + growth, k) == (base * Pow(1.0 + growth, k - 1)) * (1.0 + growth);
    }
  }

  /** The expenses of k months are k times the monthly expenses. */
  lemma {:induction false} ExpensesClosedForm(expenses: real, k: nat)
    ensures ExpensesTotal(expenses, k) == (k as real) * expenses
  {
    if k > 0 {
      ExpensesClosedForm(expenses, k - 1);
    }
  }

  /** Without growth every month earns the first month's revenue, k months earn k times it. */
  lemma {:induction false} FlatRevenue(base: real, k: nat)
    ensures RevenueAt(base, 0.0, k) == base
    ensures RevenueTotal(base, 0.0, k) == (k as real) * base
  {
    if k > 0 {
      FlatRevenue(base, k - 1);
    }
  }

  /** With non-negative revenue and growth, each month earns at least as much as the one before. */
  lemma {:induction false} RevenueGrows(base: real, growth: real, k: nat)
    requires base >= 0.0 && growth >= 0.0
    ensures 0.0 <= RevenueAt(base, growth, k) <= RevenueAt(base, growth, k + 1)
  {
    if k > 0 {
      RevenueGrows(base, growth, k - 1);
    }
  }
}
