/**
 * The calculator component: its form fields, the required-field guard, the
 * estimate it derives from a complete form, and the component state that
 * recalculation overwrites, or leaves as it was when the form is incomplete.
 */
module SavingsCalculator {
  import opened Wrappers
  import opened Numbers
  import opened Savings
  import opened Growth

  /** A numeric form field: `None` is the empty string, which fails the guard. */
  type Field = Option<real>

  datatype Form = Form(
    annualRevenue: Field,
    operatingCosts: Field,
    employeeCount: Field,
    itSpend: Field,
    customerAcquisitionCost: Field,
    inventoryTurnover: Field,
    avgEmployeeSalary: Field,
    customerLifetimeValue: Field,
    avgProjectDuration: Field)

  datatype FieldName =
    | AnnualRevenue | OperatingCosts | EmployeeCount | ItSpend | CustomerAcquisitionCost
    | InventoryTurnover | AvgEmployeeSalary | CustomerLifetimeValue | AvgProjectDuration

  /** Every field but the inventory turnover must be filled in. */
  predicate Required(name: FieldName) {
    name != InventoryTurnover
  }

  function Get(f: Form, name: FieldName): Field {
    match name
    case AnnualRevenue => f.annualRevenue
    case OperatingCosts => f.operatingCosts
    case EmployeeCount => f.employeeCount
    case ItSpend => f.itSpend
    case CustomerAcquisitionCost => f.customerAcquisitionCost
    case InventoryTurnover => f.inventoryTurnover
    case AvgEmployeeSalary => f.avgEmployeeSalary
    case CustomerLifetimeValue => f.customerLifetimeValue
    case AvgProjectDuration => f.avgProjectDuration
  }

  /** The form after editing one field. */
  function Put(f: Form, name: FieldName, v: Field): (g: Form)
    ensures Get(g, name) == v
    ensures forall other :: other != name ==> Get(g, other) == Get(f, other)
  {
    match name
    case AnnualRevenue => f.(annualRevenue := v)
    case OperatingCosts => f.(operatingCosts := v)
    case EmployeeCount => f.(employeeCount := v)
    case ItSpend => f.(itSpend := v)
    case CustomerAcquisitionCost => f.(customerAcquisitionCost := v)
    case InventoryTurnover => f.(inventoryTurnover := v)
    case AvgEmployeeSalary => f.(avgEmployeeSalary := v)
    case CustomerLifetimeValue => f.(customerLifetimeValue := v)
    case AvgProjectDuration => f.(avgProjectDuration := v)
  }

  /** The guard and the parse: the inputs when the eight required fields are filled in,
      the inventory turnover counting as 0 when it is empty. */
  function Parse(f: Form): (r: Option<Inputs>)
    ensures r.Some? <==> forall name :: Required(name) ==> Get(f, name).Some?
    ensures r.Some? ==> r.value.inventory == f.inventoryTurnover.GetOr(0.0)
    ensures r.Some? ==>
      Get(f, AnnualRevenue) == Some(r.value.revenue) && Get(f, OperatingCosts) == Some(r.value.costs) &&
      Get(f, EmployeeCount) == Some(r.value.employees) && Get(f, ItSpend) == Some(r.value.it) &&
      Get(f, CustomerAcquisitionCost) == Some(r.value.cac) && Get(f, AvgEmployeeSalary) == Some(r.value.avgSalary) &&
      Get(f, CustomerLifetimeValue) == Some(r.value.clv) && Get(f, AvgProjectDuration) == Some(r.value.projectDuration)
  {
    GuardPassesIffRequiredPresent(f);
    if GuardPasses(f) then
      Some(Inputs(
        revenue := f.annualRevenue.value,
        costs := f.operatingCosts.value,
        employees := f.employeeCount.value,
        it := f.itSpend.value,
        cac := f.customerAcquisitionCost.value,
        inventory := f.inventoryTurnover.GetOr(0.0),
        avgSalary := f.avgEmployeeSalary.value,
        clv := f.customerLifetimeValue.value,
        projectDuration := f.avgProjectDuration.value))
    else
      None
  }

  /** The guard's conjunction of the eight fields, spelled out. */
  predicate GuardPasses(f: Form) {
    f.annualRevenue.Some? && f.operatingCosts.Some? && f.employeeCount.Some? && f.itSpend.Some?
    && f.customerAcquisitionCost.Some? && f.avgEmployeeSalary.Some?
    && f.customerLifetimeValue.Some? && f.avgProjectDuration.Some?
  }

  lemma {:induction false} GuardPassesIffRequiredPresent(f: Form)
    ensures GuardPasses(f) <==> forall name :: Required(name) ==> Get(f, name).Some?
  {
    if forall name :: Required(name) ==> Get(f, name).Some? {
      assert Get(f, AnnualRevenue).Some? && Get(f, OperatingCosts).Some? && Get(f, EmployeeCount).Some?;
      assert Get(f, ItSpend).Some? && Get(f, CustomerAcquisitionCost).Some? && Get(f, AvgEmployeeSalary).Some?;
      assert Get(f, CustomerLifetimeValue).Some? && Get(f, AvgProjectDuration).Some?;
    }
  }

  /** What a complete form produces: the breakdown and the projected series. */
  datatype Report = Report(savings: Breakdown, projectedGrowth: seq<GrowthPoint>)

  /** The estimate for a form and an industry, or nothing when the form is incomplete. */
  function CalculateSavings(f: Form, industry: Industry): (r: Option<Report>)
    ensures r.Some? <==> forall name :: Required(name) ==> Get(f, name).Some?
    ensures r.Some? ==> |r.value.projectedGrowth| == Years + 1
  {
    match Parse(f)
    case None => None
    case Some(inp) =>
      var b := ComputeBreakdown(inp, industry);
      Some(Report(b, Projection(inp.revenue, GrowthRate(b.total, inp.revenue), Years)))
  }

  /** An empty inventory turnover is the same as a turnover of 0. */
  lemma MissingInventoryCountsAsZero(f: Form, industry: Industry)
    ensures CalculateSavings(Put(f, InventoryTurnover, None), industry)
         == CalculateSavings(Put(f, InventoryTurnover, Some(0.0)), industry)
  {
  }

  /** Outside retail, the inventory turnover, filled in or not, changes nothing. */
  lemma InventoryIgnoredOutsideRetail(f: Form, v: Field, w: Field, industry: Industry)
    requires industry != Retail
    ensures CalculateSavings(Put(f, InventoryTurnover, v), industry)
         == CalculateSavings(Put(f, InventoryTurnover, w), industry)
  {
    var f1, f2 := Put(f, InventoryTurnover, v), Put(f, InventoryTurnover, w);
    if Parse(f1).Some? {
      InventoryIrrelevantOutsideRetail(Parse(f1).value, Parse(f2).value.inventory, industry);
    }
  }

  /** The project duration is required but unused: any two filled-in values give the same estimate. */
  lemma ProjectDurationUnused(f: Form, d1: real, d2: real, industry: Industry)
    ensures CalculateSavings(Put(f, AvgProjectDuration, Some(d1)), industry)
         == CalculateSavings(Put(f, AvgProjectDuration, Some(d2)), industry)
  {
  }

  /** A complete form with positive revenue and positive total savings projects strictly rising revenue,
      starting from the revenue entered. */
  lemma ReportGrowthRises(f: Form, industry: Industry)
    requires CalculateSavings(f, industry).Some?
    requires f.annualRevenue.value > 0.0
    requires CalculateSavings(f, industry).value.savings.total.Finite?
    requires CalculateSavings(f, industry).value.savings.total.value > 0.0
    ensures var s := CalculateSavings(f, industry).value.projectedGrowth;
      s[0] == GrowthPoint("Current", Finite(f.annualRevenue.value)) &&
      forall i, j :: 0 <= i < j < |s| ==>
        s[i].revenue.Finite? && s[j].revenue.Finite? && s[i].revenue.value < s[j].revenue.value
  {
    var inp := Parse(f).value;
    var total := ComputeBreakdown(inp, industry).total;
    assert inp.revenue == f.annualRevenue.value;
    var s := Projection(inp.revenue, GrowthRate(total, inp.revenue), Years);
    assert CalculateSavings(f, industry) == Some(Report(ComputeBreakdown(inp, industry), s));
    SeriesStrictlyIncreasing(inp.revenue, total);
  }

  /** A complete form with a zero acquisition cost: customer retention and the total are non-finite,
      and so is every projected year, while "Current" still holds the entered revenue. */
  lemma ZeroAcquisitionCostPoisonsEstimate(f: Form, industry: Industry)
    requires CalculateSavings(f, industry).Some?
    requires f.customerAcquisitionCost.value == 0.0
    ensures var r := CalculateSavings(f, industry).value;
      r.savings.customerRetention.amount == NonFinite && r.savings.total == NonFinite &&
      r.projectedGrowth[0] == GrowthPoint("Current", Finite(f.annualRevenue.value)) &&
      forall i :: 1 <= i < |r.projectedGrowth| ==> r.projectedGrowth[i].revenue == NonFinite
  {
    var inp := Parse(f).value;
    SeriesDegenerate(inp.revenue, ComputeBreakdown(inp, industry).total);
  }

  /** The form and industry whose estimate is on display. */
  datatype Snapshot = Snapshot(form: Form, industry: Industry)

  /**
   * The component's state: one cell per form control, and the two outputs
   * that each recalculation either replaces together or leaves untouched.
   */
  class Calculator {
    var industry: Industry
    var annualRevenue: Field
    var operatingCosts: Field
    var employeeCount: Field
    var itSpend: Field
    var customerAcquisitionCost: Field
    var inventoryTurnover: Field
    var avgEmployeeSalary: Field
    var customerLifetimeValue: Field
    var avgProjectDuration: Field
    var savings: Option<Breakdown>
    var projectedGrowth: seq<GrowthPoint>

    /** The last complete form, the one the outputs were computed from. */
    ghost var shownFor: Option<Snapshot>

    function CurrentForm(): Form
      reads this
    {
      Form(annualRevenue, operatingCosts, employeeCount, itSpend, customerAcquisitionCost,
           inventoryTurnover, avgEmployeeSalary, customerLifetimeValue, avgProjectDuration)
    }

    /** The outputs show the estimate of the last complete form, or nothing if there was none. */
    ghost predicate ShowsLastComplete()
      reads this
    {
      (shownFor.None? ==> savings == None && projectedGrowth == []) &&
      (shownFor.Some? ==>
        savings.Some? &&
        CalculateSavings(shownFor.value.form, shownFor.value.industry) == Some(Report(savings.value, projectedGrowth)))
    }

    /** Between edits, a complete current form is the one on display. */
    ghost predicate Valid()
      reads this
    {
      ShowsLastComplete() &&
      (Parse(CurrentForm()).Some? ==> shownFor == Some(Snapshot(CurrentForm(), industry)))
    }

    constructor ()
      ensures Valid()
      ensures industry == Retail
      ensures forall name :: Get(CurrentForm(), name) == None
      ensures savings == None && projectedGrowth == []
    {
      industry := Retail;
      annualRevenue, operatingCosts, employeeCount, itSpend := None, None, None, None;
      customerAcquisitionCost, inventoryTurnover, avgEmployeeSalary := None, None, None;
      customerLifetimeValue, avgProjectDuration := None, None;
      savings, projectedGrowth := None, [];
      shownFor := None;
    }

    /** Recomputes the outputs from the current form, or leaves them as they were if a required field is empty. */
    method Recalculate()
      requires ShowsLastComplete()
      modifies this`savings, this`projectedGrowth, this`shownFor
      ensures Valid()
      ensures match CalculateSavings(CurrentForm(), industry)
        case Some(r) => savings == Some(r.savings) && projectedGrowth == r.projectedGrowth
        case None => savings == old(savings) && projectedGrowth == old(projectedGrowth)
    {
      var form := CurrentForm();
      match Parse(form) {
        case None =>
        case Some(inp) =>
          var b := ComputeBreakdown(inp, industry);
          savings := Some(b);
          projectedGrowth := ProjectGrowth(inp.revenue, b.total);
          shownFor := Some(Snapshot(form, industry));
      }
    }

    /** Edits one form field, then recalculates. */
    method SetField(name: FieldName, v: Field)
      requires Valid()
      modifies this
      ensures Valid()
      ensures CurrentForm() == Put(old(CurrentForm()), name, v) && industry == old(industry)
      ensures match CalculateSavings(CurrentForm(), industry)
        case Some(r) => savings == Some(r.savings) && projectedGrowth == r.projectedGrowth
        case None => savings == old(savings) && projectedGrowth == old(projectedGrowth)
    {
      match name {
        case AnnualRevenue => annualRevenue := v;
        case OperatingCosts => operatingCosts := v;
        case EmployeeCount => employeeCount := v;
        case ItSpend => itSpend := v;
        case CustomerAcquisitionCost => customerAcquisitionCost := v;
        case InventoryTurnover => inventoryTurnover := v;
        case AvgEmployeeSalary => avgEmployeeSalary := v;
        case CustomerLifetimeValue => customerLifetimeValue := v;
        case AvgProjectDuration => avgProjectDuration := v;
      }
      Recalculate();
    }

    /** Selects another industry, then recalculates with its coefficients. */
    method SetIndustry(selected: Industry)
      requires Valid()
      modifies this
      ensures Valid()
      ensures industry == selected && CurrentForm() == old(CurrentForm())
      ensures match CalculateSavings(CurrentForm(), industry)
        case Some(r) => savings == Some(r.savings) && projectedGrowth == r.projectedGrowth
        case None => savings == old(savings) && projectedGrowth == old(projectedGrowth)
    {
      industry := selected;
      Recalculate();
    }
  }
}
