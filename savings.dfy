/**
 * The industry benchmark table and the savings breakdown computed from it:
 * six category amounts, each with the coefficient it used, and their total.
 */
module Savings {
  import opened Wrappers
  import opened Numbers

  /** The four values the industry selector offers. */
  datatype Industry = Retail | Education | Finance | Service

  /** An industry's percentage coefficients; only some industries have an inventory one. */
  datatype Benchmark = Benchmark(
    dataEfficiency: real,
    processOptimization: real,
    predictiveAnalytics: real,
    employeeProductivity: real,
    customerRetention: real,
    inventoryManagement: Option<real>)

  predicate IsPercent(x: real) {
    0.0 < x <= 100.0
  }

  function BenchmarkFor(industry: Industry): (b: Benchmark)
    ensures b.inventoryManagement.Some? <==> industry == Retail
    ensures IsPercent(b.dataEfficiency) && IsPercent(b.processOptimization)
    ensures IsPercent(b.predictiveAnalytics) && IsPercent(b.employeeProductivity)
    ensures IsPercent(b.customerRetention)
    ensures b.inventoryManagement.Some? ==> IsPercent(b.inventoryManagement.value)
  {
    match industry
    case Retail => Benchmark(15.0, 5.0, 2.0, 10.0, 20.0, Some(2.0))
    case Education => Benchmark(12.0, 6.0, 3.0, 8.0, 15.0, None)
    case Finance => Benchmark(18.0, 7.0, 4.0, 9.0, 25.0, None)
    case Service => Benchmark(14.0, 5.0, 2.0, 11.0, 22.0, None)
  }

  /** The parsed business metrics; `inventory` is already defaulted to 0 when absent. */
  datatype Inputs = Inputs(
    revenue: real,
    costs: real,
    employees: real,
    it: real,
    cac: real,
    inventory: real,
    avgSalary: real,
    clv: real,
    projectDuration: real)

  datatype Category = Category(amount: Num, percentage: real)

  datatype Breakdown = Breakdown(
    dataEfficiency: Category,
    processOptimization: Category,
    predictiveAnalytics: Category,
    employeeProductivity: Category,
    customerRetention: Category,
    inventoryManagement: Category,
    total: Num)

  /** The six categories of a breakdown, in the order the source adds them up. */
  function Categories(b: Breakdown): seq<Category> {
    [b.dataEfficiency, b.processOptimization, b.predictiveAnalytics,
     b.employeeProductivity, b.customerRetention, b.inventoryManagement]
  }

  /** The amounts of `cs` added left to right, starting from 0. */
  function SumAmounts(cs: seq<Category>): Num {
    if cs == [] then Finite(0.0) else Add(SumAmounts(cs[..|cs| - 1]), cs[|cs| - 1].amount)
  }

  function Percent(x: real): Num {
    Finite(x / 100.0)
  }

  /** The savings breakdown for the parsed inputs and the selected industry. */
  function ComputeBreakdown(inp: Inputs, industry: Industry): (b: Breakdown)
    ensures b.total == SumAmounts(Categories(b))
    ensures b.customerRetention.amount.Finite? <==> inp.cac != 0.0
    ensures b.total.Finite? <==> inp.cac != 0.0
    ensures industry != Retail ==> b.inventoryManagement == Category(Finite(0.0), 0.0)
  {
    var bm := BenchmarkFor(industry);
    var dataEfficiency := Mul(Finite(inp.it), Percent(bm.dataEfficiency));
    var processOptimization := Mul(Finite(inp.costs), Percent(bm.processOptimization));
    var predictiveAnalytics := Mul(Finite(inp.revenue), Percent(bm.predictiveAnalytics));
    var employeeProductivity :=
      Mul(Mul(Finite(inp.avgSalary), Finite(inp.employees)), Percent(bm.employeeProductivity));
    var customerRetention :=
      Mul(Mul(Sub(Finite(inp.clv), Finite(inp.cac)), Div(Finite(inp.revenue), inp.cac)),
          Percent(bm.customerRetention));
    var inventoryManagement :=
      if industry == Retail
      then Mul(Mul(Finite(inp.costs), Percent(bm.inventoryManagement.value)), Finite(inp.inventory))
      else Finite(0.0);
    var total :=
      Add(Add(Add(Add(Add(dataEfficiency, processOptimization), predictiveAnalytics),
                  employeeProductivity), customerRetention), inventoryManagement);
    var b := Breakdown(
      Category(dataEfficiency, bm.dataEfficiency),
      Category(processOptimization, bm.processOptimization),
      Category(predictiveAnalytics, bm.predictiveAnalytics),
      Category(employeeProductivity, bm.employeeProductivity),
      Category(customerRetention, bm.customerRetention),
      Category(inventoryManagement, bm.inventoryManagement.GetOr(0.0)),
      total);
    SumOfSix(Categories(b));
    b
  }

  /** Summing six categories from 0 is adding their amounts left to right. */
  lemma SumOfSix(cs: seq<Category>)
    requires |cs| == 6
    ensures SumAmounts(cs) ==
      Add(Add(Add(Add(Add(cs[0].amount, cs[1].amount), cs[2].amount), cs[3].amount), cs[4].amount), cs[5].amount)
  {
    assert SumAmounts(cs[..1]) == cs[0].amount by {
      assert cs[..1][..0] == [];
    }
    forall k | 2 <= k <= 6
      ensures SumAmounts(cs[..k]) == Add(SumAmounts(cs[..k - 1]), cs[k - 1].amount)
    {
      assert cs[..k][..k - 1] == cs[..k - 1];
    }
    assert cs[..6] == cs;
  }

  /** Every reported percentage is the selected industry's coefficient, 0 where it has none. */
  lemma PercentagesAreBenchmarks(inp: Inputs, industry: Industry)
    ensures var b, bm := ComputeBreakdown(inp, industry), BenchmarkFor(industry);
      b.dataEfficiency.percentage == bm.dataEfficiency &&
      b.processOptimization.percentage == bm.processOptimization &&
      b.predictiveAnalytics.percentage == bm.predictiveAnalytics &&
      b.employeeProductivity.percentage == bm.employeeProductivity &&
      b.customerRetention.percentage == bm.customerRetention &&
      b.inventoryManagement.percentage == (if industry == Retail then bm.inventoryManagement.value else 0.0)
  {
  }

  /** Each amount equals its closed-form formula. The five that do not involve the acquisition cost
      are finite whatever it is; the customer-retention amount and the total are too when it is nonzero. */
  lemma CategoryFormulas(inp: Inputs, industry: Industry)
    ensures var b, bm := ComputeBreakdown(inp, industry), BenchmarkFor(industry);
      var de := inp.it * (bm.dataEfficiency / 100.0);
      var po := inp.costs * (bm.processOptimization / 100.0);
      var pa := inp.revenue * (bm.predictiveAnalytics / 100.0);
      var ep := inp.avgSalary * inp.employees * (bm.employeeProductivity / 100.0);
      var im := if industry == Retail then inp.costs * (bm.inventoryManagement.value / 100.0) * inp.inventory else 0.0;
      b.dataEfficiency.amount == Finite(de) &&
      b.processOptimization.amount == Finite(po) &&
      b.predictiveAnalytics.amount == Finite(pa) &&
      b.employeeProductivity.amount == Finite(ep) &&
      b.inventoryManagement.amount == Finite(im) &&
      (inp.cac != 0.0 ==>
        var cr := (inp.clv - inp.cac) * (inp.revenue / inp.cac) * (bm.customerRetention / 100.0);
        b.customerRetention.amount == Finite(cr) &&
        b.total == Finite(de + po + pa + ep + cr + im)) &&
      (inp.cac == 0.0 ==> b.customerRetention.amount == NonFinite && b.total == NonFinite)
  {
  }

  /** Outside retail the inventory turnover has no effect on any part of the breakdown. */
  lemma InventoryIrrelevantOutsideRetail(inp: Inputs, inventory: real, industry: Industry)
    requires industry != Retail
    ensures ComputeBreakdown(inp.(inventory := inventory), industry) == ComputeBreakdown(inp, industry)
  {
  }

  /** The worked retail example: each amount and the total, in exact arithmetic. */
  lemma RetailExample()
    ensures var b := ComputeBreakdown(Inputs(1000000.0, 600000.0, 50.0, 100000.0, 500.0, 4.0, 60000.0, 2000.0, 6.0), Retail);
      b.dataEfficiency == Category(Finite(15000.0), 15.0) &&
      b.processOptimization == Category(Finite(30000.0), 5.0) &&
      b.predictiveAnalytics == Category(Finite(20000.0), 2.0) &&
      b.employeeProductivity == Category(Finite(300000.0), 10.0) &&
      b.customerRetention == Category(Finite(600000.0), 20.0) &&
      b.inventoryManagement == Category(Finite(48000.0), 2.0) &&
      b.total == Finite(1013000.0)
  {
  }
}
