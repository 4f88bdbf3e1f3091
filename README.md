# Savings calculator: a Dafny model

This project models the cost-savings and ROI calculator of a consulting firm's landing page.
The user fills in business metrics and picks one of four industries. The calculator then:

- looks up that industry's benchmark percentages;
- estimates savings in six categories (data efficiency, process optimisation, predictive analytics,
  employee productivity, customer retention, and inventory management for retail only);
- adds the six amounts into a total;
- projects revenue over five years, compounding it by `1 + total / revenue`.

When a required field is empty, nothing is recomputed and the previous outputs stay on screen.

Modules:

- `Wrappers` (`wrappers.dfy`): `Option`. It is used for empty form fields and for the benchmark
  coefficient that only retail has.
- `Numbers` (`numbers.dfy`): the calculator's numbers. They are exact reals plus one absorbing
  `NonFinite` value, which stands for every infinity and NaN. Besides the constant 100, the only
  divisors are the parsed acquisition cost and revenue, so `x / Infinity == 0` never arises.
  `Math.pow(·, 0) == 1`, which holds even for NaN, is modelled by `NumPow`. So finiteness is
  tracked exactly. Dividing by a zero acquisition cost or a zero revenue gives `NonFinite`, and
  `NonFinite` spreads to everything computed from it, as it does in the browser.
- `Savings` (`savings.dfy`): the industry benchmark table, the parsed inputs, and the breakdown of
  six `{amount, percentage}` categories plus the total.
- `Growth` (`growth.dfy`): the projected series. `Projection` is the specification and is built one
  year at a time. `ProjectGrowth` is the source's `for` loop, proved equal to it.
- `SavingsCalculator` (`calculator.dfy`): the form and its required-field guard. `CalculateSavings`
  is the pure estimate of a form. The class `Calculator` holds the component's state cells.
  `Recalculate` replaces `savings` and `projectedGrowth` together, or leaves both unchanged.
  `SetField` and `SetIndustry` model an edit followed by the effect that recalculates.
  The invariant `Valid()` says two things. First, the outputs shown are the estimate of the last
  complete form, or nothing if there was none. Second, when the current form is complete, it is
  the form being shown.

## Model

| member | source | states |
|---|---|---|
| `Numbers.Div` | src/components/calculator.js:104 | A quotient is finite exactly when the dividend is finite and the divisor nonzero; a finite quotient times the divisor gives back the dividend |
| `Numbers.NumPow` | src/components/calculator.js:126 | `Math.pow` with a whole exponent: finite exactly when the base is finite or the exponent is 0; exponent 0 gives 1, even for a non-finite base; exponent 1 gives the base |
| `Savings.BenchmarkFor` | src/components/calculator.js:79-84 | Only retail has an inventory-management coefficient; every coefficient is a percentage in (0, 100] |
| `Savings.ComputeBreakdown` | src/components/calculator.js:100-118 | The total is the six category amounts added left to right from 0; the customer-retention amount and the total are finite exactly when the acquisition cost is nonzero; outside retail the inventory category is `{amount: 0, percentage: 0}` |
| `Savings.PercentagesAreBenchmarks` | src/components/calculator.js:110-118 | Each reported percentage is the selected industry's coefficient; inventory reports 0 when the industry has no such coefficient, so no coefficient of another industry appears |
| `Savings.CategoryFormulas` | src/components/calculator.js:100-108 | The data-efficiency, process, predictive, employee and inventory amounts always equal their closed-form formulas (inventory 0 outside retail). With a nonzero acquisition cost, the customer-retention amount equals its formula and the total is the sum of the six. With a zero acquisition cost, both are non-finite |
| `Savings.InventoryIrrelevantOutsideRetail` | src/components/calculator.js:105 | Outside retail the inventory turnover does not affect any part of the breakdown |
| `Savings.RetailExample` | src/components/calculator.js:100-108 | Retail, revenue 1,000,000, costs 600,000, 50 employees, IT 100,000, CAC 500, turnover 4, salary 60,000, CLV 2,000 gives 15,000 / 30,000 / 20,000 / 300,000 / 600,000 / 48,000 and total 1,013,000 |
| `Growth.GrowthRate` | src/components/calculator.js:121 | The rate is finite exactly when the total is finite and the revenue nonzero; then (rate - 1) times revenue is the total |
| `Growth.YearLabel` | src/components/calculator.js:125 | A label starts with `Year `; for a one-digit year it is `Year ` followed by that digit |
| `Growth.YearLabelsDistinct` | src/components/calculator.js:123-125 | The five projected years have five different labels |
| `Growth.YearPoint` | src/components/calculator.js:124-127 | Year i's point is labelled `Year i`; its revenue is finite exactly when the rate is; for year 1 it is revenue times the rate |
| `Growth.Projection` | src/components/calculator.js:122-128 | A series over `years` years has `years + 1` points; the first is `Current` with the raw revenue |
| `Growth.ProjectionAt` | src/components/calculator.js:124-127 | Point i (1 to years) is labelled `Year i` and holds revenue times the growth rate to the power i |
| `Growth.ProjectGrowth` | src/components/calculator.js:121-128 | The push loop over i = 1..5, starting from the `Current` point, builds exactly the five-year projection for the rate `1 + total / revenue` |
| `Growth.SeriesShape` | src/components/calculator.js:122-125 | The series has exactly six points, labelled `Current`, `Year 1`, ..., `Year 5`; the first holds the raw revenue |
| `Growth.SeriesClosedForm` | src/components/calculator.js:121-126 | With a nonzero revenue and a finite total, the rate is `1 + total/revenue`, and point i (0 to 5) holds `revenue * rate^i` |
| `Growth.SeriesCompounds` | src/components/calculator.js:121-126 | Under the same conditions each year's revenue is the previous point's revenue times the rate |
| `Growth.RisingProjection` | src/components/calculator.js:123-127 | Over any number of years, a positive revenue compounded by a rate above 1 gives finite, strictly increasing revenues |
| `Growth.SeriesStrictlyIncreasing` | src/components/calculator.js:121-128 | A positive revenue and a positive finite total make the six revenues finite and strictly increasing |
| `Growth.SeriesDegenerate` | src/components/calculator.js:121-126 | With a zero revenue or a non-finite total, every projected year is non-finite, while `Current` still holds the raw revenue |
| `SavingsCalculator.Parse` | src/components/calculator.js:87-96 | Parsing succeeds if and only if every required field is filled in. The inventory turnover is its value, or 0 when empty. Every other input is the value of its field |
| `SavingsCalculator.GuardPassesIffRequiredPresent` | src/components/calculator.js:87 | The guard's eight-way conjunction holds if and only if every field except the inventory turnover is filled in |
| `SavingsCalculator.CalculateSavings` | src/components/calculator.js:86-131 | A form yields an estimate if and only if all eight required fields are filled in; the estimate's series has six points |
| `SavingsCalculator.MissingInventoryCountsAsZero` | src/components/calculator.js:93 | An empty inventory turnover gives the same estimate as a turnover of 0 |
| `SavingsCalculator.InventoryIgnoredOutsideRetail` | src/components/calculator.js:105 | Outside retail, any two inventory-turnover values, empty or not, give the same estimate |
| `SavingsCalculator.ProjectDurationUnused` | src/components/calculator.js:96 | Forms that differ only in their (filled-in) project duration give identical estimates |
| `SavingsCalculator.ReportGrowthRises` | src/components/calculator.js:121-128 | For a complete form with positive revenue and positive finite total savings, the series starts at the entered revenue and rises strictly |
| `SavingsCalculator.ZeroAcquisitionCostPoisonsEstimate` | src/components/calculator.js:104-128 | A complete form with a zero acquisition cost gives a non-finite customer-retention amount and total. Every projected year is non-finite, while `Current` holds the entered revenue |
| `SavingsCalculator.Calculator.constructor` | src/components/calculator.js:59-70 | Initially: industry retail, every field empty, no savings, an empty series, and the invariant holds |
| `SavingsCalculator.Calculator.Recalculate` | src/components/calculator.js:86-131 | A complete form replaces both outputs with its estimate. An incomplete form leaves both exactly as they were (stale output) |
| `SavingsCalculator.Calculator.SetField` | src/components/calculator.js:133-135 | Editing one field changes only that field, then recalculates as above; the invariant is kept |
| `SavingsCalculator.Calculator.SetIndustry` | src/components/calculator.js:152-160 | Selecting an industry changes only the industry, then recalculates with the new coefficients; the invariant is kept |

## Left out

- Floating point: numbers are exact reals. Rounding and overflow of large finite values to Infinity are not modelled. NaN and the infinities are one value, `NonFinite`; the model tracks only whether a result is finite.
- `parseFloat` of arbitrary text: a filled-in field is a real number. Text that passes the non-empty check but parses to NaN is not modelled.
- The React effect trigger is modelled as `SetField`/`SetIndustry` calling `Recalculate`. React skips the effect when a setter receives an equal value; the model recalculates anyway. By `Valid()`, the outputs are the same either way.
- Rendering is not modelled: `toLocaleString` formatting, showing the inventory input and category only for retail, the suggestion texts, and the revenue chart.
- The homepage variants and the lead-capture page are not part of this model. They contain presentation and form acknowledgements only.
