/** The numbers of the budget workbook: the per-type average of the historical projects,
    the executive summary's cost table, the scenario comparison, the fast-track premiums
    and the value-engineering savings. Only the values written into cells are modelled;
    styles, merges, widths and number formats are presentation. Amounts the source holds
    as floats are exact reals here, and `int()` is truncation toward zero. */
module Budget {
  import opened Common
  import opened CostCategories

  // ------------------------------------------------------------------------
  // calculate_historical_average
  // ------------------------------------------------------------------------

  /** The fields of one entry of `historical_projects.json` that the average reads. */
  datatype ProjectRecord = ProjectRecord(
    storeType: string, totalCost: int, costPerSqft: real, categories: CategoryAmounts<int>)

  /** The dictionary `calculate_historical_average` returns. `costPerSqft` is the exact
      mean, before `round(…, 2)`. */
  datatype Average = Average(count: nat, totalCost: int, costPerSqft: real, categories: CategoryAmounts<int>)

  /** `[p for p in projects if p['store_type'] == store_type]`. */
  function Matching(projects: seq<ProjectRecord>, storeType: string): (r: seq<ProjectRecord>)
    ensures |r| <= |projects|
    ensures forall i :: 0 <= i < |r| ==> r[i].storeType == storeType && r[i] in projects
    ensures forall i :: 0 <= i < |projects| && projects[i].storeType == storeType ==> projects[i] in r
    decreases |projects|
  {
    if projects == [] then []
    else
      var rest := Matching(projects[1..], storeType);
      assert forall i :: 1 <= i < |projects| ==> projects[i] == projects[1..][i - 1];
      if projects[0].storeType == storeType then [projects[0]] + rest else rest
  }

  /** The positions in `projects` of the projects of one type. */
  function PositionsOfType(projects: seq<ProjectRecord>, storeType: string): set<int> {
    set i | 0 <= i < |projects| && projects[i].storeType == storeType
  }

  /** Each project as an option: present exactly when it has the type. */
  function ByType(projects: seq<ProjectRecord>, storeType: string): (opts: seq<Option<ProjectRecord>>)
    ensures |opts| == |projects|
  {
    seq(|projects|, i requires 0 <= i < |projects| =>
      if projects[i].storeType == storeType then Some(projects[i]) else None)
  }

  /** The filter is the order-preserving selection of the projects of the type. */
  lemma {:induction false} MatchingIsSelection(projects: seq<ProjectRecord>, storeType: string)
    ensures Matching(projects, storeType) == Values(ByType(projects, storeType))
    decreases |projects|
  {
    if projects != [] {
      var opts := ByType(projects, storeType);
      MatchingIsSelection(projects[1..], storeType);
      assert opts[1..] == ByType(projects[1..], storeType);
      ValuesCons(opts);
    }
  }

  /** The filter keeps the order of `projects`, repeats nothing and leaves out no project
      of the type; the positions it took the projects from are returned. */
  lemma MatchingInOrder(projects: seq<ProjectRecord>, storeType: string) returns (idx: seq<int>)
    ensures PickedInOrder(ByType(projects, storeType), Matching(projects, storeType), idx)
  {
    MatchingIsSelection(projects, storeType);
    idx := ValuesInOrder(ByType(projects, storeType));
  }

  /** The filter holds exactly as many projects as there are projects of the type. */
  lemma MatchingCount(projects: seq<ProjectRecord>, storeType: string)
    ensures |Matching(projects, storeType)| == |PositionsOfType(projects, storeType)|
  {
    var opts := ByType(projects, storeType);
    var idx := MatchingInOrder(projects, storeType);
    PickedCount(opts, Matching(projects, storeType), idx);
    assert (set i | 0 <= i < |opts| && opts[i].Some?) == PositionsOfType(projects, storeType);
  }

  function TotalCosts(ps: seq<ProjectRecord>): (r: seq<int>)
    ensures |r| == |ps| && forall i :: 0 <= i < |r| ==> r[i] == ps[i].totalCost
  {
    seq(|ps|, i requires 0 <= i < |ps| => ps[i].totalCost)
  }

  function CategoryColumn(ps: seq<ProjectRecord>, c: Category): (r: seq<int>)
    ensures |r| == |ps| && forall i :: 0 <= i < |r| ==> r[i] == ps[i].categories.At(c)
  {
    seq(|ps|, i requires 0 <= i < |ps| => ps[i].categories.At(c))
  }

  function RealSum(xs: seq<real>): real
    decreases |xs|
  {
    if xs == [] then 0.0 else RealSum(xs[..|xs| - 1]) + xs[|xs| - 1]
  }

  function CostsPerSqft(ps: seq<ProjectRecord>): (r: seq<real>)
    ensures |r| == |ps| && forall i :: 0 <= i < |r| ==> r[i] == ps[i].costPerSqft
  {
    seq(|ps|, i requires 0 <= i < |ps| => ps[i].costPerSqft)
  }

  /** `int(sum(xs) / len(xs))`. */
  function TruncMean(xs: seq<int>): int
    requires |xs| > 0
  {
    Trunc(Sum(xs) as real / |xs| as real)
  }

  /** A truncated mean stays within any bounds that all its values keep. */
  lemma TruncMeanBounds(xs: seq<int>, lo: int, hi: int)
    requires |xs| > 0
    requires forall i :: 0 <= i < |xs| ==> lo <= xs[i] <= hi
    ensures lo <= TruncMean(xs) <= hi
  {
    SumBounds(xs, lo, hi);
    TruncQuotientBounds(Sum(xs), |xs|, lo, hi);
  }

  /** `calculate_historical_average(store_type)`: `None` when no project has the type. */
  function HistoricalAverage(projects: seq<ProjectRecord>, storeType: string): (r: Option<Average>)
    ensures r.None? <==> forall i :: 0 <= i < |projects| ==> projects[i].storeType != storeType
    ensures r.Some? ==> r.value.count == |Matching(projects, storeType)| > 0
    ensures r.Some? ==> r.value.count == |PositionsOfType(projects, storeType)|
    ensures r.Some? ==>
              var ps := Matching(projects, storeType);
              && r.value.totalCost == Trunc(Sum(TotalCosts(ps)) as real / r.value.count as real)
              && r.value.costPerSqft == RealSum(CostsPerSqft(ps)) / r.value.count as real
              && forall c :: r.value.categories.At(c) == Trunc(Sum(CategoryColumn(ps, c)) as real / r.value.count as real)
  {
    var ps := Matching(projects, storeType);
    MatchingCount(projects, storeType);
    if ps == [] then
      assert forall i :: 0 <= i < |projects| ==> projects[i].storeType != storeType;
      None
    else
      Some(Average(
        |ps|,
        TruncMean(TotalCosts(ps)),
        RealSum(CostsPerSqft(ps)) / |ps| as real,
        Tabulate(c => TruncMean(CategoryColumn(ps, c)))))
  }

  /** The average total cost lies within any range that holds every matching project's
      total, so between the smallest and the largest of them. */
  lemma AverageTotalWithinRange(projects: seq<ProjectRecord>, storeType: string, lo: int, hi: int)
    requires forall i :: 0 <= i < |projects| && projects[i].storeType == storeType ==>
               lo <= projects[i].totalCost <= hi
    ensures HistoricalAverage(projects, storeType).Some? ==>
              lo <= HistoricalAverage(projects, storeType).value.totalCost <= hi
  {
    var ps := Matching(projects, storeType);
    if ps != [] {
      forall i | 0 <= i < |ps| ensures lo <= TotalCosts(ps)[i] <= hi {
        var j :| 0 <= j < |projects| && projects[j] == ps[i];
      }
      TruncMeanBounds(TotalCosts(ps), lo, hi);
    }
  }

  /** Each category of the average is the truncated mean of that category over the
      matching projects, and so lies within any range that holds all of them. */
  lemma AverageCategoryWithinRange(projects: seq<ProjectRecord>, storeType: string, c: Category, lo: int, hi: int)
    requires forall i :: 0 <= i < |projects| && projects[i].storeType == storeType ==>
               lo <= projects[i].categories.At(c) <= hi
    ensures HistoricalAverage(projects, storeType).Some? ==>
              lo <= HistoricalAverage(projects, storeType).value.categories.At(c) <= hi
  {
    var ps := Matching(projects, storeType);
    if ps != [] {
      forall i | 0 <= i < |ps| ensures lo <= CategoryColumn(ps, c)[i] <= hi {
        var j :| 0 <= j < |projects| && projects[j] == ps[i];
      }
      TruncMeanBounds(CategoryColumn(ps, c), lo, hi);
    }
  }

  // ------------------------------------------------------------------------
  // create_executive_summary: the cost table
  // ------------------------------------------------------------------------

  /** The display name of a category in the summary and fast-track sheets. */
  function Label(c: Category): string {
    match c
    case Construction => "Construction"
    case Electrical => "Electrical"
    case Hvac => "HVAC"
    case Plumbing => "Plumbing"
    case Fixtures => "Fixtures"
    case Technology => "Technology"
    case SoftCosts => "Soft Costs"
  }

  /** One category line: amount, `% of Total` and `Cost/SqFt`. */
  datatype SummaryRow = SummaryRow(name: string, amount: int, shareOfTotal: real, perSqft: real)

  /** The COST SUMMARY block: nothing below the heading without history, else the seven
      lines, the total line and the "Based on N historical projects" note. */
  datatype CostSummary =
    | NoHistory
    | CostTable(rows: seq<SummaryRow>, total: int, costPerSqft: real, basis: string)

  /** The cost table of `create_executive_summary` for a store type of `sqft` square feet. */
  function ExecutiveCostSummary(avg: Option<Average>, sqft: int): (r: Result<CostSummary>)
    ensures avg.None? ==> r == Ok(NoHistory)
    ensures avg.Some? && (avg.value.totalCost == 0 || sqft == 0) ==> r == Err("ZeroDivisionError")
    ensures avg.Some? && avg.value.totalCost != 0 && sqft != 0 ==> r.Ok? && r.value.CostTable?
    ensures r.Ok? && r.value.CostTable? ==>
              avg.Some? && r.value.total == avg.value.totalCost && r.value.costPerSqft == avg.value.costPerSqft
              && r.value.basis == "Based on " + NatToString(avg.value.count) + " historical projects"
              && |r.value.rows| == |CategoryOrder|
              && forall i :: 0 <= i < |r.value.rows| ==>
                   && r.value.rows[i].name == Label(CategoryOrder[i])
                   && r.value.rows[i].amount == avg.value.categories.At(CategoryOrder[i])
                   && r.value.rows[i].shareOfTotal * r.value.total as real == r.value.rows[i].amount as real
                   && r.value.rows[i].perSqft * sqft as real == r.value.rows[i].amount as real
  {
    match avg
    case None => Ok(NoHistory)
    case Some(a) =>
      if a.totalCost == 0 || sqft == 0 then Err("ZeroDivisionError")
      else
        var total := a.totalCost as real;
        var rows := seq(|CategoryOrder|, i requires 0 <= i < |CategoryOrder| =>
          var amount := a.categories.At(CategoryOrder[i]);
          SummaryRow(Label(CategoryOrder[i]), amount, amount as real / total, amount as real / sqft as real));
        Ok(CostTable(rows, a.totalCost, a.costPerSqft,
                     "Based on " + NatToString(a.count) + " historical projects"))
  }

  /** The `% of Total` column adds up to the category amounts' share of the total. */
  lemma SummarySharesAddUp(avg: Option<Average>, sqft: int)
    requires ExecutiveCostSummary(avg, sqft).Ok? && ExecutiveCostSummary(avg, sqft).value.CostTable?
    ensures var t := ExecutiveCostSummary(avg, sqft).value;
            RealSum(seq(|t.rows|, i requires 0 <= i < |t.rows| => t.rows[i].shareOfTotal)) * t.total as real
              == Total(avg.value.categories) as real
  {
    var t := ExecutiveCostSummary(avg, sqft).value;
    var shares := seq(|t.rows|, i requires 0 <= i < |t.rows| => t.rows[i].shareOfTotal);
    var amounts := avg.value.categories.InOrder();
    ScaledSum(shares, amounts, t.total as real);
  }

  /** Values whose every one times `k` is the matching integer sum, times `k`, to their total. */
  lemma {:induction false} ScaledSum(xs: seq<real>, ys: seq<int>, k: real)
    requires |xs| == |ys|
    requires forall i :: 0 <= i < |xs| ==> xs[i] * k == ys[i] as real
    ensures RealSum(xs) * k == Sum(ys) as real
    decreases |xs|
  {
    if xs != [] {
      var n := |xs| - 1;
      ScaledSum(xs[..n], ys[..n], k);
      calc {
        RealSum(xs) * k;
        (RealSum(xs[..n]) + xs[n]) * k;
        RealSum(xs[..n]) * k + xs[n] * k;
        Sum(ys[..n]) as real + ys[n] as real;
      }
    }
  }

  // ------------------------------------------------------------------------
  // create_scenario_comparisons
  // ------------------------------------------------------------------------

  datatype Scenario = Scenario(name: string, description: string, multiplier: real, notes: string)

  /** The five scenarios in the order they are written. */
  const Scenarios: seq<Scenario> := [
    Scenario("Base Case", "Standard build, Columbus market, 12-week timeline", 1.0, "Historical average"),
    Scenario("Cincinnati Market", "Union labor requirements", 1.06,
             "Regional modifier: electrical 1.08x, construction 1.05x"),
    Scenario("Accelerated Schedule", "8-week timeline (vs. 12 weeks)", 1.15, "Labor premium, expedite fees"),
    Scenario("Premium Finishes", "Upgraded materials and fixtures", 1.22, "Fixture upgrade 30%, material upgrade 15%"),
    Scenario("Budget Cap (Value Eng.)", "Cost-optimized specifications", 0.88,
             "Material substitutions, simplified finishes")
  ]

  const OverColour: string := "C00000"
  const UnderColour: string := "00B050"

  /** The font colour of the `vs. Base` cell: red above the base, green below, none at it. */
  function VarianceColour(variance: real): (c: Option<string>)
    ensures c == Some(OverColour) <==> variance > 0.0
    ensures c == Some(UnderColour) <==> variance < 0.0
    ensures c == None <==> variance == 0.0
  {
    if variance > 0.0 then Some(OverColour)
    else if variance < 0.0 then Some(UnderColour)
    else None
  }

  datatype ScenarioRow = ScenarioRow(
    name: string, description: string, cost: int, variance: real, colour: Option<string>, notes: string)

  /** The scenario sheet: the no-data message, or one row per scenario. */
  datatype ScenarioSheet = NoDataMessage(message: string) | ScenarioTable(rows: seq<ScenarioRow>)

  function ScenarioRowOf(s: Scenario, baseCost: int): ScenarioRow {
    ScenarioRow(s.name, s.description, Trunc(baseCost as real * s.multiplier), s.multiplier - 1.0,
                VarianceColour(s.multiplier - 1.0), s.notes)
  }

  /** The rows of `create_scenario_comparisons`, written one scenario at a time. */
  method ScenarioComparisons(avg: Option<Average>) returns (sheet: ScenarioSheet)
    ensures avg.None? <==> sheet.NoDataMessage?
    ensures sheet.NoDataMessage? ==> sheet.message == "No historical data available for scenarios"
    ensures sheet.ScenarioTable? ==>
              avg.Some? && |sheet.rows| == |Scenarios|
              && forall i :: 0 <= i < |sheet.rows| ==> sheet.rows[i] == ScenarioRowOf(Scenarios[i], avg.value.totalCost)
  {
    if avg.None? {
      return NoDataMessage("No historical data available for scenarios");
    }
    var rows := ScenarioRows(Scenarios, avg.value.totalCost);
    sheet := ScenarioTable(rows);
  }

  /** The loop of `create_scenario_comparisons`: one row per scenario, costed from the base. */
  method ScenarioRows(scenarios: seq<Scenario>, baseCost: int) returns (rows: seq<ScenarioRow>)
    ensures |rows| == |scenarios|
    ensures forall i :: 0 <= i < |scenarios| ==> rows[i] == ScenarioRowOf(scenarios[i], baseCost)
  {
    rows := [];
    for k := 0 to |scenarios|
      invariant |rows| == k
      invariant forall i :: 0 <= i < k ==> rows[i] == ScenarioRowOf(scenarios[i], baseCost)
    {
      var s := scenarios[k];
      var cost := Trunc(baseCost as real * s.multiplier);
      var variance := s.multiplier - 1.0;
      var colour: Option<string> := None;
      if variance > 0.0 {
        colour := Some(OverColour);
      } else if variance < 0.0 {
        colour := Some(UnderColour);
      }
      assert colour == VarianceColour(variance);
      var row := ScenarioRow(s.name, s.description, cost, variance, colour, s.notes);
      assert row == ScenarioRowOf(s, baseCost);
      rows := rows + [row];
    }
  }

  /** For a non-negative base: the Base Case costs exactly the base and is uncoloured, the
      three premium scenarios cost at least the base in increasing order and are red, and
      the budget cap costs at most the base and is green. */
  lemma ScenarioOrdering(baseCost: int)
    requires baseCost >= 0
    ensures var r := seq(5, i requires 0 <= i < 5 => ScenarioRowOf(Scenarios[i], baseCost));
            && r[0].cost == baseCost && r[0].variance == 0.0 && r[0].colour.None?
            && baseCost <= r[1].cost <= r[2].cost <= r[3].cost
            && r[4].cost <= baseCost
            && r[1].colour == r[2].colour == r[3].colour == Some(OverColour)
            && r[4].colour == Some(UnderColour)
  {
    var b := baseCost as real;
    TruncMonotone(b, b * 1.06);
    TruncMonotone(b * 1.06, b * 1.15);
    TruncMonotone(b * 1.15, b * 1.22);
    TruncMonotone(b * 0.88, b);
  }

  /** Truncation of non-negative amounts keeps their order. */
  lemma TruncMonotone(x: real, y: real)
    requires 0.0 <= x <= y
    ensures Trunc(x) <= Trunc(y)
  {
  }

  // ------------------------------------------------------------------------
  // create_fast_track_strategy
  // ------------------------------------------------------------------------

  /** The example costs (a suburban standard store). */
  const FastTrackBase: CategoryAmounts<int> := CategoryAmounts(226625, 77700, 51800, 32375, 161875, 51800, 45325)

  /** The schedule-compression premium of each category. */
  const FastTrackPremium: CategoryAmounts<real> := CategoryAmounts(0.18, 0.15, 0.12, 0.15, 0.08, 0.05, 0.10)

  function Justification(c: Category): string {
    match c
    case Construction => "Overtime labor, weekend shifts"
    case Electrical => "Premium electrician rates, expedited materials"
    case Hvac => "Expedited delivery, installation coordination"
    case Plumbing => "Premium labor rates for compressed schedule"
    case Fixtures => "Air freight for fixtures, rush orders"
    case Technology => "Standard pricing (minimal timeline impact)"
    case SoftCosts => "Expedited permitting, additional oversight"
  }

  /** `a / b` on integers: true division, raising on a zero divisor. */
  function Ratio(a: int, b: int): (r: Result<real>)
    ensures r.Err? <==> b == 0
    ensures r.Err? ==> r.error == "ZeroDivisionError"
    ensures r.Ok? ==> r.value * b as real == a as real
  {
    if b == 0 then Err("ZeroDivisionError") else Ok(a as real / b as real)
  }

  /** `int(base_cost * (1 + premium))`. */
  function FastTrackCost(base: int, premium: real): int {
    Trunc(base as real * (1.0 + premium))
  }

  /** A non-negative premium never lowers a non-negative cost, and truncation never raises
      it above the exact premium cost. */
  lemma FastTrackAtLeastBase(base: int, premium: real)
    requires base >= 0 && premium >= 0.0
    ensures base <= FastTrackCost(base, premium)
    ensures FastTrackCost(base, premium) as real <= base as real * (1.0 + premium)
  {
    var b := base as real;
    assert b * (1.0 + premium) == b + b * premium;
    NonNegativeProduct(b, premium);
  }

  /** The fast-track cost of every category. */
  function FastTrackCosts(base: CategoryAmounts<int>, premium: CategoryAmounts<real>): (r: CategoryAmounts<int>)
    ensures forall c :: r.At(c) == FastTrackCost(base.At(c), premium.At(c))
  {
    Tabulate(c => FastTrackCost(base.At(c), premium.At(c)))
  }

  datatype FastTrackRow = FastTrackRow(
    name: string, baseCost: int, premium: real, fastTrack: int, justification: string)

  function FastTrackRowOf(base: CategoryAmounts<int>, premium: CategoryAmounts<real>, c: Category): FastTrackRow {
    FastTrackRow(Label(c), base.At(c), premium.At(c), FastTrackCost(base.At(c), premium.At(c)), Justification(c))
  }

  /** The premium table: one row per category in key order, then `total_base`,
      `total_fast` (the sum of the truncated rows) and the premium over the base. */
  method FastTrackTable(base: CategoryAmounts<int>, premium: CategoryAmounts<real>)
    returns (rows: seq<FastTrackRow>, totalBase: int, totalFast: int, totalPremium: Result<real>)
    ensures |rows| == |CategoryOrder|
    ensures forall i :: 0 <= i < |rows| ==> rows[i] == FastTrackRowOf(base, premium, CategoryOrder[i])
    ensures totalBase == Total(base)
    ensures totalFast == Total(FastTrackCosts(base, premium))
    ensures totalPremium == Ratio(totalFast - totalBase, totalBase)
  {
    rows := [];
    for k := 0 to |CategoryOrder|
      invariant |rows| == k
      invariant forall i :: 0 <= i < k ==> rows[i] == FastTrackRowOf(base, premium, CategoryOrder[i])
    {
      var c := CategoryOrder[k];
      var fastTrack := FastTrackCost(base.At(c), premium.At(c));
      rows := rows + [FastTrackRow(Label(c), base.At(c), premium.At(c), fastTrack, Justification(c))];
    }
    totalBase := Sum(base.InOrder());
    totalFast := Sum(FastTrackCosts(base, premium).InOrder());
    totalPremium := Ratio(totalFast - totalBase, totalBase);
  }

  /** With non-negative costs and premiums the fast-track total is at least the base total. */
  lemma FastTrackTotalAtLeastBase(base: CategoryAmounts<int>, premium: CategoryAmounts<real>)
    requires forall c :: base.At(c) >= 0 && premium.At(c) >= 0.0
    ensures Total(base) <= Total(FastTrackCosts(base, premium))
  {
    var f := FastTrackCosts(base, premium);
    forall c ensures base.At(c) <= f.At(c) {
      FastTrackAtLeastBase(base.At(c), premium.At(c));
    }
    SumOfSeven(base.InOrder());
    SumOfSeven(f.InOrder());
  }

  /** The exact, untruncated sum of the premium costs. */
  function ExactFastTrackTotal(base: CategoryAmounts<int>, premium: CategoryAmounts<real>): real {
    base.construction as real * (1.0 + premium.construction)
    + base.electrical as real * (1.0 + premium.electrical)
    + base.hvac as real * (1.0 + premium.hvac)
    + base.plumbing as real * (1.0 + premium.plumbing)
    + base.fixtures as real * (1.0 + premium.fixtures)
    + base.technology as real * (1.0 + premium.technology)
    + base.softCosts as real * (1.0 + premium.softCosts)
  }

  /** The example's totals: 647,500 before and 731,091 after the premiums. Truncating the
      exact sum instead would give 731,092: the total is a sum of truncations. */
  lemma FastTrackExampleTotals()
    ensures Total(FastTrackBase) == 647500
    ensures Total(FastTrackCosts(FastTrackBase, FastTrackPremium)) == 731091
    ensures Trunc(ExactFastTrackTotal(FastTrackBase, FastTrackPremium)) == 731092
  {
    var f := FastTrackCosts(FastTrackBase, FastTrackPremium);
    SumOfSeven(FastTrackBase.InOrder());
    FastTrackExampleCosts();
    SumOfSeven(f.InOrder());
    assert ExactFastTrackTotal(FastTrackBase, FastTrackPremium) == 731092.25;
  }

  lemma FastTrackExampleCosts()
    ensures FastTrackCosts(FastTrackBase, FastTrackPremium)
            == CategoryAmounts(267417, 89355, 58016, 37231, 174825, 54390, 49857)
  {
    var f := FastTrackCosts(FastTrackBase, FastTrackPremium);
    assert f.construction == 267417;
    assert f.plumbing == 37231;
    assert f.softCosts == 49857;
  }

  // ------------------------------------------------------------------------
  // create_value_engineering_strategy
  // ------------------------------------------------------------------------

  datatype Opportunity = Opportunity(
    category: string, standard: int, approach: string, savingsPct: real, impact: string)

  const Opportunities: seq<Opportunity> := [
    Opportunity("Flooring", 63000, "LVT → Laminate", 0.22, "Minimal - 3yr vs 5yr lifespan"),
    Opportunity("Lighting Fixtures", 26780, "Reduce fixture count by 15%", 0.15, "Minor - adequate illumination maintained"),
    Opportunity("Mannequins", 6930, "Reduce count from 18 to 12", 0.33, "Minimal - display flexibility"),
    Opportunity("Digital Displays", 8600, "Reduce from 4 to 2 units", 0.50, "Moderate - less dynamic content"),
    Opportunity("Paint Finish", 15750, "Standard vs premium", 0.18, "Minimal - appearance"),
    Opportunity("Dressing Rooms", 14800, "Reduce from 8 to 6 units", 0.25, "Minimal - adequate capacity")
  ]

  /** `int(standard * savings_pct)`. */
  function Savings(o: Opportunity): int {
    Trunc(o.standard as real * o.savingsPct)
  }

  /** A share between none and all of a non-negative cost saves between nothing and the
      whole cost, so the value-engineered cost `standard - savings` is within the same range. */
  lemma SavingsWithinStandard(o: Opportunity)
    requires o.standard >= 0 && 0.0 <= o.savingsPct <= 1.0
    ensures 0 <= Savings(o) <= o.standard
    ensures 0 <= o.standard - Savings(o) <= o.standard
  {
    var s := o.standard as real;
    NonNegativeProduct(s, o.savingsPct);
    NonNegativeProduct(s, 1.0 - o.savingsPct);
    assert s * o.savingsPct <= s;
  }

  /** One written row; `veCost` is computed by the source but not written to a cell. */
  datatype VeRow = VeRow(category: string, standard: int, approach: string, savings: int, veCost: int, impact: string)

  function VeRowOf(o: Opportunity): VeRow {
    VeRow(o.category, o.standard, o.approach, Savings(o), o.standard - Savings(o), o.impact)
  }

  function Standards(opps: seq<Opportunity>): (r: seq<int>)
    ensures |r| == |opps| && forall i :: 0 <= i < |r| ==> r[i] == opps[i].standard
  {
    seq(|opps|, i requires 0 <= i < |opps| => opps[i].standard)
  }

  function SavingsColumn(opps: seq<Opportunity>): (r: seq<int>)
    ensures |r| == |opps| && forall i :: 0 <= i < |r| ==> r[i] == Savings(opps[i])
  {
    seq(|opps|, i requires 0 <= i < |opps| => Savings(opps[i]))
  }

  /** The savings table with its running `total_standard` and `total_savings`, and the
      total reduction `total_savings / total_standard`. */
  method ValueEngineeringTable(opps: seq<Opportunity>)
    returns (rows: seq<VeRow>, totalStandard: int, totalSavings: int, reduction: Result<real>)
    ensures |rows| == |opps| && forall i :: 0 <= i < |rows| ==> rows[i] == VeRowOf(opps[i])
    ensures totalStandard == Sum(Standards(opps))
    ensures totalSavings == Sum(SavingsColumn(opps))
    ensures reduction == Ratio(totalSavings, totalStandard)
  {
    ghost var standards := Standards(opps);
    ghost var savingsColumn := SavingsColumn(opps);
    totalStandard := 0;
    totalSavings := 0;
    rows := [];
    for k := 0 to |opps|
      invariant |rows| == k && forall i :: 0 <= i < k ==> rows[i] == VeRowOf(opps[i])
      invariant totalStandard == Sum(standards[..k])
      invariant totalSavings == Sum(savingsColumn[..k])
    {
      var o := opps[k];
      var savings := Savings(o);
      var veCost := o.standard - savings;
      rows := rows + [VeRow(o.category, o.standard, o.approach, savings, veCost, o.impact)];
      SumStep(standards, k);
      SumStep(savingsColumn, k);
      totalStandard := totalStandard + o.standard;
      totalSavings := totalSavings + savings;
    }
    assert standards[..|opps|] == standards;
    assert savingsColumn[..|opps|] == savingsColumn;
    reduction := Ratio(totalSavings, totalStandard);
  }

  /** With non-negative costs and shares in [0, 1], the total savings are between nothing
      and the total standard cost. */
  lemma {:induction false} TotalSavingsWithinStandard(opps: seq<Opportunity>)
    requires forall i :: 0 <= i < |opps| ==> opps[i].standard >= 0 && 0.0 <= opps[i].savingsPct <= 1.0
    ensures 0 <= Sum(SavingsColumn(opps)) <= Sum(Standards(opps))
    decreases |opps|
  {
    if opps != [] {
      var n := |opps| - 1;
      TotalSavingsWithinStandard(opps[..n]);
      SavingsWithinStandard(opps[n]);
      assert SavingsColumn(opps)[..n] == SavingsColumn(opps[..n]);
      assert Standards(opps)[..n] == Standards(opps[..n]);
    }
  }

  /** The sheet's totals: 135,860 standard and 30,998 of savings. */
  lemma ValueEngineeringExampleTotals()
    ensures Sum(Standards(Opportunities)) == 135860
    ensures Sum(SavingsColumn(Opportunities)) == 30998
  {
    var standards := Standards(Opportunities);
    var savings := SavingsColumn(Opportunities);
    assert savings[0] == 13860 && savings[1] == 4017 && savings[2] == 2286;
    assert savings[3] == 4300 && savings[4] == 2835 && savings[5] == 3700;
    SumOfSix(standards);
    SumOfSix(savings);
  }

  lemma SumOfSix(s: seq<int>)
    requires |s| == 6
    ensures Sum(s) == s[0] + s[1] + s[2] + s[3] + s[4] + s[5]
  {
    SumStep(s, 0);
    SumStep(s, 1);
    SumStep(s, 2);
    SumStep(s, 3);
    SumStep(s, 4);
    SumStep(s, 5);
    assert s[..6] == s;
  }
}
