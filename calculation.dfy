/**
 * The calculation engine (src/utils/calculationUtils.ts): monthly token totals, pay-as-you-go
 * cost from per-1000-token prices, and the absolute and percentage savings of dropping a
 * subscription. All quantities are exact rationals; floating-point rounding is not modelled.
 */
module Calculation {

  import opened Catalog
  import opened Sums

  /** The calculator's fixed month. */
  const DaysInMonth: real := 30.0

  /** Token totals for one month. */
  datatype MonthlyTokens = MonthlyTokens(totalInputTokens: real, totalOutputTokens: real)

  function AvgInput(area: UsageArea): real { area.avgInputTokens }

  function AvgOutput(area: UsageArea): real { area.avgOutputTokens }

  /** Prompts in a month at a given daily rate. */
  function MonthlyPrompts(promptsPerDay: real): real
  {
    promptsPerDay * DaysInMonth
  }

  /**
   * What the accumulation loop of calculateMonthlyTokens yields: for each selected area,
   * its per-prompt token average times the month's prompts, summed over the areas.
   */
  function MonthlyTokensOf(areas: seq<UsageArea>, promptsPerDay: real): (r: MonthlyTokens)
    ensures areas == [] ==> r == MonthlyTokens(0.0, 0.0)
  {
    MonthlyTokens(Sum(areas, AvgInput) * MonthlyPrompts(promptsPerDay),
                  Sum(areas, AvgOutput) * MonthlyPrompts(promptsPerDay))
  }

  /** calculateMonthlyTokens: accumulates both totals area by area. */
  method CalculateMonthlyTokens(selectedAreas: seq<UsageArea>, promptsPerDay: real)
    returns (r: MonthlyTokens)
    ensures r == MonthlyTokensOf(selectedAreas, promptsPerDay)
  {
    var totalPromptsPerMonth := promptsPerDay * DaysInMonth;
    var totalInputTokens := 0.0;
    var totalOutputTokens := 0.0;
    for i := 0 to |selectedAreas|
      invariant totalInputTokens == Sum(selectedAreas[..i], AvgInput) * totalPromptsPerMonth
      invariant totalOutputTokens == Sum(selectedAreas[..i], AvgOutput) * totalPromptsPerMonth
    {
      var area := selectedAreas[i];
      assert selectedAreas[..i + 1][..i] == selectedAreas[..i];
      totalInputTokens := totalInputTokens + area.avgInputTokens * totalPromptsPerMonth;
      totalOutputTokens := totalOutputTokens + area.avgOutputTokens * totalPromptsPerMonth;
    }
    assert selectedAreas[..|selectedAreas|] == selectedAreas;
    r := MonthlyTokens(totalInputTokens, totalOutputTokens);
  }

  /** Both totals scale with the daily prompt rate (so doubling it doubles them). */
  lemma MonthlyTokensLinear(areas: seq<UsageArea>, promptsPerDay: real, k: real)
    ensures MonthlyTokensOf(areas, k * promptsPerDay).totalInputTokens
            == k * MonthlyTokensOf(areas, promptsPerDay).totalInputTokens
    ensures MonthlyTokensOf(areas, k * promptsPerDay).totalOutputTokens
            == k * MonthlyTokensOf(areas, promptsPerDay).totalOutputTokens
  {
  }

  /** The totals do not depend on the order in which areas were selected. */
  lemma MonthlyTokensOrderIndependent(areas: seq<UsageArea>, permuted: seq<UsageArea>, promptsPerDay: real)
    requires multiset(areas) == multiset(permuted)
    ensures MonthlyTokensOf(areas, promptsPerDay) == MonthlyTokensOf(permuted, promptsPerDay)
  {
    SumPermutation(areas, permuted, AvgInput);
    SumPermutation(areas, permuted, AvgOutput);
  }

  /** Selecting one more area adds exactly that area's monthly tokens. */
  lemma MonthlyTokensAppend(areas: seq<UsageArea>, area: UsageArea, promptsPerDay: real)
    ensures MonthlyTokensOf(areas + [area], promptsPerDay).totalInputTokens
            == MonthlyTokensOf(areas, promptsPerDay).totalInputTokens
               + area.avgInputTokens * MonthlyPrompts(promptsPerDay)
    ensures MonthlyTokensOf(areas + [area], promptsPerDay).totalOutputTokens
            == MonthlyTokensOf(areas, promptsPerDay).totalOutputTokens
               + area.avgOutputTokens * MonthlyPrompts(promptsPerDay)
  {
    assert (areas + [area])[..|areas|] == areas;
  }

  /** Nonnegative averages and rate give nonnegative totals. */
  lemma MonthlyTokensNonNegative(areas: seq<UsageArea>, promptsPerDay: real)
    requires forall i :: 0 <= i < |areas| ==> areas[i].avgInputTokens >= 0.0 && areas[i].avgOutputTokens >= 0.0
    requires promptsPerDay >= 0.0
    ensures MonthlyTokensOf(areas, promptsPerDay).totalInputTokens >= 0.0
    ensures MonthlyTokensOf(areas, promptsPerDay).totalOutputTokens >= 0.0
  {
    SumNonNegative(areas, AvgInput);
    SumNonNegative(areas, AvgOutput);
  }

  /**
   * The documented formula (the explanation page and the comment above the loop): the MEAN
   * per-prompt tokens over the selected areas, times the month's prompts.
   */
  function DocumentedMonthlyTokens(areas: seq<UsageArea>, promptsPerDay: real): (r: MonthlyTokens)
    requires |areas| > 0
    ensures r.totalInputTokens * (|areas| as real) == MonthlyTokensOf(areas, promptsPerDay).totalInputTokens
    ensures r.totalOutputTokens * (|areas| as real) == MonthlyTokensOf(areas, promptsPerDay).totalOutputTokens
  {
    var n := |areas| as real;
    MonthlyTokens(Sum(areas, AvgInput) / n * MonthlyPrompts(promptsPerDay),
                  Sum(areas, AvgOutput) / n * MonthlyPrompts(promptsPerDay))
  }

  /**
   * The code sums where the documentation averages: areas of 400 and 600 input tokens
   * (and 1200 and 2500 output tokens) at 20 prompts a day give 600,000 input tokens, not
   * the documented 300,000; output gives 2,220,000, not 1,110,000.
   */
  lemma SumNotMeanExample()
    ensures MonthlyTokensOf([Writing, Programming], 20.0) == MonthlyTokens(600000.0, 2220000.0)
    ensures DocumentedMonthlyTokens([Writing, Programming], 20.0) == MonthlyTokens(300000.0, 1110000.0)
  {
    var areas := [Writing, Programming];
    assert areas[..1] == [Writing];
    assert [Writing][..0] == [];
    assert Sum([Writing], AvgInput) == 400.0 by { assert AvgInput(Writing) == 400.0; }
    assert Sum([Writing], AvgOutput) == 1200.0 by { assert AvgOutput(Writing) == 1200.0; }
    assert AvgInput(Programming) == 600.0 && AvgOutput(Programming) == 2500.0;
  }

  /** calculatePayAsYouGoCost: per-1000-token input and output prices. */
  function PayAsYouGoCost(inputTokens: real, outputTokens: real, model: AIModel): (r: real)
    ensures inputTokens >= 0.0 && outputTokens >= 0.0 && model.inputCost >= 0.0 && model.outputCost >= 0.0
            ==> r >= 0.0
    ensures inputTokens == 0.0 && outputTokens == 0.0 ==> r == 0.0
  {
    (inputTokens / 1000.0) * model.inputCost + (outputTokens / 1000.0) * model.outputCost
  }

  /** Cost is additive in token volumes: splitting the tokens splits the bill. */
  lemma PayAsYouGoAdditive(in1: real, out1: real, in2: real, out2: real, model: AIModel)
    ensures PayAsYouGoCost(in1 + in2, out1 + out2, model)
            == PayAsYouGoCost(in1, out1, model) + PayAsYouGoCost(in2, out2, model)
  {
  }

  /** With nonnegative prices, more tokens never cost less. */
  lemma PayAsYouGoMonotone(in1: real, out1: real, in2: real, out2: real, model: AIModel)
    requires model.inputCost >= 0.0 && model.outputCost >= 0.0
    requires in1 <= in2 && out1 <= out2
    ensures PayAsYouGoCost(in1, out1, model) <= PayAsYouGoCost(in2, out2, model)
  {
    PayAsYouGoAdditive(in1, out1, in2 - in1, out2 - out1, model);
  }

  /** The explanation page's example: 300,000 in and 1,110,000 out on GPT-4o cost 18.15. */
  lemma PayAsYouGoWorkedExample()
    ensures PayAsYouGoCost(300000.0, 1110000.0, Gpt4o) == 18.15
  {
  }

  /** calculateMonthlySavings: what dropping the subscription leaves in hand. */
  function MonthlySavings(subscriptionCost: real, payAsYouGoCost: real): (r: real)
    ensures r + payAsYouGoCost == subscriptionCost
    ensures r > 0.0 <==> payAsYouGoCost < subscriptionCost
  {
    subscriptionCost - payAsYouGoCost
  }

  /** calculateSavingsPercentage: savings as a share of the subscription, 0 for a free plan. */
  function SavingsPercentage(subscriptionCost: real, payAsYouGoCost: real): (r: real)
    ensures subscriptionCost == 0.0 ==> r == 0.0
    ensures subscriptionCost != 0.0 ==> r * subscriptionCost == MonthlySavings(subscriptionCost, payAsYouGoCost) * 100.0
  {
    if subscriptionCost == 0.0 then 0.0
    else ((subscriptionCost - payAsYouGoCost) / subscriptionCost) * 100.0
  }

  /** A paid plan and a nonnegative pay-as-you-go bill give at most 100% savings. */
  lemma SavingsPercentageAtMostHundred(subscriptionCost: real, payAsYouGoCost: real)
    requires subscriptionCost > 0.0 && payAsYouGoCost >= 0.0
    ensures SavingsPercentage(subscriptionCost, payAsYouGoCost) <= 100.0
    ensures SavingsPercentage(subscriptionCost, payAsYouGoCost) >= 0.0 <==> payAsYouGoCost <= subscriptionCost
  {
    var r := SavingsPercentage(subscriptionCost, payAsYouGoCost);
    assert r * subscriptionCost == (subscriptionCost - payAsYouGoCost) * 100.0;
    if r > 100.0 {
      ProductSign(r - 100.0, subscriptionCost);
      assert false;
    }
    if payAsYouGoCost <= subscriptionCost && r < 0.0 {
      ProductSign(-r, subscriptionCost);
      assert false;
    }
    if payAsYouGoCost > subscriptionCost && r >= 0.0 {
      ProductSign(r, subscriptionCost);
      assert false;
    }
  }

  /** The sign of a product with a positive factor. */
  lemma ProductSign(a: real, b: real)
    requires b > 0.0
    ensures a > 0.0 ==> a * b > 0.0
    ensures a >= 0.0 ==> a * b >= 0.0
  {
  }

  /** Equal costs save nothing, in either measure. */
  lemma NoSavingsAtEqualCost(cost: real)
    ensures MonthlySavings(cost, cost) == 0.0
    ensures SavingsPercentage(cost, cost) == 0.0
  {
  }

  /** A free plan: savings are minus the pay-as-you-go bill, the percentage is 0. */
  lemma FreePlanSavings(payAsYouGoCost: real)
    ensures MonthlySavings(0.0, payAsYouGoCost) == -payAsYouGoCost
    ensures SavingsPercentage(0.0, payAsYouGoCost) == 0.0
  {
  }

  /** The explanation page's example: a 20/month plan against 18.15 saves 1.85, or 9.25%. */
  lemma SavingsWorkedExample()
    ensures MonthlySavings(20.0, 18.15) == 1.85
    ensures SavingsPercentage(20.0, 18.15) == 9.25
  {
  }

  /**
   * One writing area (400 in, 1200 out) at 10 prompts a day on GPT-4o: 120,000 and 360,000
   * tokens, 6.00 a month, and against a 20/month plan 14.00 saved, 70%.
   */
  lemma SingleAreaScenario()
    ensures MonthlyTokensOf([Writing], 10.0) == MonthlyTokens(120000.0, 360000.0)
    ensures PayAsYouGoCost(120000.0, 360000.0, Gpt4o) == 6.0
    ensures MonthlySavings(ChatGptPlus.monthlyCost, 6.0) == 14.0
    ensures SavingsPercentage(ChatGptPlus.monthlyCost, 6.0) == 70.0
  {
    assert [Writing][..0] == [];
    assert Sum([Writing], AvgInput) == 400.0 by { assert AvgInput(Writing) == 400.0; }
    assert Sum([Writing], AvgOutput) == 1200.0 by { assert AvgOutput(Writing) == 1200.0; }
  }
}
