/** The historical-project records of `generate_structured_data.py`: consecutive store ids
    from Store-50, a fixed number of projects per store type, a total cost drawn around the
    type's cost per square foot and split into the seven categories, and the CSV files the
    records and the regional modifiers are flattened into. Each project's random draws are
    parameters of the model. */
module StructuredData {
  import opened Common
  import opened CostCategories

  /** One entry of `store_type_examples`: type, square footage, number of projects. */
  datatype StoreTypeRow = StoreTypeRow(storeType: string, sqft: nat, count: nat)

  const Distribution: seq<StoreTypeRow> := [
    StoreTypeRow("suburban_standard", 3500, 80),
    StoreTypeRow("urban_flagship", 5000, 20),
    StoreTypeRow("express_compact", 2000, 30),
    StoreTypeRow("remodel_refresh", 3500, 25),
    StoreTypeRow("prototype_innovation", 4000, 5)
  ]

  /** `base_cost_psf`. */
  const BaseCostPsf: map<string, nat> := map[
    "suburban_standard" := 185,
    "urban_flagship" := 285,
    "express_compact" := 145,
    "remodel_refresh" := 95,
    "prototype_innovation" := 325
  ]

  /** The markets `random.choice` picks from. */
  const Markets: seq<string> :=
    ["Columbus", "Cincinnati", "Cleveland", "Indianapolis", "Louisville", "Pittsburgh", "Detroit"]

  /** `project_id = 50`. */
  const FirstProjectId: nat := 50

  /** The draws made for one project, in the order the loop makes them. */
  datatype ProjectDraws = ProjectDraws(
    variation: real,   // random.uniform(0.85, 1.15)
    market: nat,       // index of random.choice(markets)
    month: nat,        // random.randint(1, 12)
    day: nat,          // random.randint(1, 28)
    timeline: int,     // random.randint(60, 120)
    variance: int,     // random.randint(-5, 10)
    scheduleRoll: real, // random.random()
    vendorRoll: real)   // random.random()

  predicate DrawsInRange(d: ProjectDraws) {
    0.85 <= d.variation <= 1.15 && d.market < |Markets| && 1 <= d.month <= 12 && 1 <= d.day <= 28
    && 60 <= d.timeline <= 120 && -5 <= d.variance <= 10
    && 0.0 <= d.scheduleRoll < 1.0 && 0.0 <= d.vendorRoll < 1.0
  }

  datatype HistoricalProject = HistoricalProject(
    storeId: string,
    storeType: string,
    squareFootage: nat,
    market: string,
    completionDate: string,
    totalCost: int,
    costPerSqft: real,
    categories: CategoryAmounts<int>,
    timelineDays: int,
    varianceFromBudget: int,
    lessonsLearned: seq<string>)

  /** `f"Store-{n}"`. */
  function StoreId(n: nat): string {
    "Store-" + NatToString(n)
  }

  /** Different numbers give different store ids. */
  lemma StoreIdInjective(m: nat, n: nat)
    requires StoreId(m) == StoreId(n)
    ensures m == n
  {
    assert NatToString(m) == StoreId(m)[6..];
    assert NatToString(n) == StoreId(n)[6..];
    ParseNatToString(m);
    ParseNatToString(n);
  }

  /** `f"2024-{month:02d}-{day:02d}"`. */
  function CompletionDate(month: nat, day: nat): string {
    "2024-" + ZeroPad(month, 2) + "-" + ZeroPad(day, 2)
  }

  /** The completion date is ten characters and its month and day read back. */
  lemma CompletionDateFields(month: nat, day: nat)
    requires 1 <= month <= 12 && 1 <= day <= 28
    ensures |CompletionDate(month, day)| == 10
    ensures CompletionDate(month, day)[..5] == "2024-" && CompletionDate(month, day)[7] == '-'
    ensures AllDigits(CompletionDate(month, day)[5..7]) && ParseNat(CompletionDate(month, day)[5..7]) == month
    ensures AllDigits(CompletionDate(month, day)[8..]) && ParseNat(CompletionDate(month, day)[8..]) == day
  {
    ZeroPad2Length(month);
    ZeroPad2Length(day);
    var s := CompletionDate(month, day);
    assert s[5..7] == ZeroPad(month, 2);
    assert s[8..] == ZeroPad(day, 2);
  }

  /** `total_cost = int(base_cost_psf[store_type] * sqft * variation)`. */
  function TotalCost(row: StoreTypeRow, variation: real): int
    requires row.storeType in BaseCostPsf
  {
    Trunc(BaseCostPsf[row.storeType] as real * row.sqft as real * variation)
  }

  /** The record the loop body builds for project `id` of type `row`. */
  function Project(id: nat, row: StoreTypeRow, d: ProjectDraws): HistoricalProject
    requires row.storeType in BaseCostPsf && row.sqft > 0 && DrawsInRange(d)
  {
    var total := TotalCost(row, d.variation);
    HistoricalProject(
      StoreId(id), row.storeType, row.sqft, Markets[d.market], CompletionDate(d.month, d.day),
      total, total as real / row.sqft as real, SplitCost(total), d.timeline, d.variance,
      [if d.scheduleRoll > 0.3 then "Completed on schedule" else "Delayed by permit issues",
       if d.vendorRoll > 0.2 then "Vendor performance good" else "Vendor substitution required"])
  }

  /** What every record satisfies, whatever was drawn. */
  lemma ProjectBounds(id: nat, row: StoreTypeRow, d: ProjectDraws)
    requires row.storeType in BaseCostPsf && row.sqft > 0 && DrawsInRange(d)
    ensures var p := Project(id, row, d);
      && p.storeId == StoreId(id)
      && p.squareFootage == row.sqft
      && p.market in Markets
      && 60 <= p.timelineDays <= 120 && -5 <= p.varianceFromBudget <= 10
      && |p.lessonsLearned| == 2
      && BaseCostPsf[row.storeType] as real * row.sqft as real * 0.85 - 1.0 < p.totalCost as real
      && p.totalCost as real <= BaseCostPsf[row.storeType] as real * row.sqft as real * 1.15
      && p.totalCost - 7 < Total(p.categories) <= p.totalCost
  {
    TotalCostBounds(row, d.variation);
    SplitCostTotal(TotalCost(row, d.variation));
  }

  lemma ScaleBetween(base: real, v: real)
    requires base >= 0.0 && 0.85 <= v <= 1.15
    ensures base * 0.85 <= base * v <= base * 1.15
  {
    assert base * (v - 0.85) >= 0.0;
    assert base * (1.15 - v) >= 0.0;
  }

  /** The drawn total stays within 15% of the type's cost per square foot times its size. */
  lemma TotalCostBounds(row: StoreTypeRow, variation: real)
    requires row.storeType in BaseCostPsf && 0.85 <= variation <= 1.15
    ensures BaseCostPsf[row.storeType] as real * row.sqft as real * 0.85 - 1.0 < TotalCost(row, variation) as real
    ensures TotalCost(row, variation) as real <= BaseCostPsf[row.storeType] as real * row.sqft as real * 1.15
    ensures TotalCost(row, variation) >= 0
  {
    var psf: nat := BaseCostPsf[row.storeType];
    var base := psf as real * row.sqft as real;
    NonNegativeProduct(psf as real, row.sqft as real);
    ScaledTrunc(base, variation);
    assert TotalCost(row, variation) == Trunc(base * variation);
  }

  lemma ScaledTrunc(base: real, v: real)
    requires base >= 0.0 && 0.85 <= v <= 1.15
    ensures base * 0.85 - 1.0 < Trunc(base * v) as real <= base * 1.15
    ensures Trunc(base * v) >= 0
  {
    ScaleBetween(base, v);
  }

  // ------------------------------------------------------------------------
  // Ids and grouping by type
  // ------------------------------------------------------------------------

  /** Number of projects of the first `k` types. */
  function Cum(k: nat): nat
    requires k <= |Distribution|
  {
    if k == 0 then 0 else Cum(k - 1) + Distribution[k - 1].count
  }

  lemma CumValues()
    ensures Cum(0) == 0 && Cum(1) == 80 && Cum(2) == 100 && Cum(3) == 130 && Cum(4) == 155 && Cum(5) == 160
  {
  }

  /** The total number of records. */
  const ProjectCount: nat := 160

  lemma {:induction false} CumMonotone(k0: nat, k1: nat)
    requires k0 <= k1 <= |Distribution|
    ensures Cum(k0) <= Cum(k1)
    decreases k1
  {
    if k0 < k1 {
      CumMonotone(k0, k1 - 1);
    }
  }

  /** The type (position in `Distribution`) of the `j`-th record: types come in table order. */
  function TypeIndex(j: nat): (k: nat)
    requires j < ProjectCount
    ensures k < |Distribution| && Cum(k) <= j < Cum(k + 1)
    ensures Distribution[k].storeType in BaseCostPsf && Distribution[k].sqft > 0
  {
    CumValues();
    if j < 80 then 0 else if j < 100 then 1 else if j < 130 then 2 else if j < 155 then 3 else 4
  }

  /** Each record's type is the one whose block of consecutive positions holds it. */
  lemma TypeIndexUnique(j: nat, k: nat)
    requires k < |Distribution| && Cum(k) <= j < Cum(k + 1)
    ensures j < ProjectCount && TypeIndex(j) == k
  {
    CumValues();
    var t := TypeIndex(j);
    if t < k {
      CumMonotone(t + 1, k);
    } else if k < t {
      CumMonotone(k + 1, t);
    }
  }

  /** The grouping by type, written out. */
  lemma TypeGrouping(j: nat)
    requires j < ProjectCount
    ensures Distribution[TypeIndex(j)].storeType ==
      if j < 80 then "suburban_standard"
      else if j < 100 then "urban_flagship"
      else if j < 130 then "express_compact"
      else if j < 155 then "remodel_refresh"
      else "prototype_innovation"
  {
  }

  lemma DistributionRows(k: nat)
    requires k < |Distribution|
    ensures Distribution[k].storeType in BaseCostPsf && Distribution[k].sqft > 0
  {
  }

  /** The historical records: record `j` is numbered `50 + j` and has the type whose block
      holds `j`, with the `j`-th draws. */
  function HistoricalProjects(draws: seq<ProjectDraws>): (ps: seq<HistoricalProject>)
    requires |draws| == ProjectCount
    requires forall j :: 0 <= j < |draws| ==> DrawsInRange(draws[j])
    ensures |ps| == ProjectCount
    ensures forall j :: 0 <= j < |ps| ==> ps[j] == Project(FirstProjectId + j, Distribution[TypeIndex(j)], draws[j])
  {
    seq(ProjectCount, j requires 0 <= j < ProjectCount => Project(FirstProjectId + j, Distribution[TypeIndex(j)], draws[j]))
  }

  /** The nested loop over `store_type_examples`: `count` records per type, numbered from 50. */
  method GenerateHistoricalProjects(draws: seq<ProjectDraws>) returns (projects: seq<HistoricalProject>)
    requires |draws| == ProjectCount
    requires forall j :: 0 <= j < |draws| ==> DrawsInRange(draws[j])
    ensures projects == HistoricalProjects(draws)
  {
    CumValues();
    ghost var all := HistoricalProjects(draws);
    projects := [];
    var projectId := FirstProjectId;
    for k := 0 to |Distribution|
      invariant |projects| == Cum(k) && projectId == FirstProjectId + |projects|
      invariant projects == all[..|projects|]
    {
      var row := Distribution[k];
      DistributionRows(k);
      CumMonotone(k + 1, |Distribution|);
      for i := 0 to row.count
        invariant |projects| == Cum(k) + i && projectId == FirstProjectId + |projects|
        invariant projects == all[..|projects|]
      {
        TypeIndexUnique(|projects|, k);
        var project := Project(projectId, row, draws[|projects|]);
        assert project == all[|projects|];
        PrefixGrows(all, |projects|);
        projects := projects + [project];
        projectId := projectId + 1;
      }
    }
    assert all[..|projects|] == all;
  }

  /** The records are numbered Store-50 … Store-209, each number once. */
  lemma ProjectIds(j: nat)
    requires j < ProjectCount
    ensures FirstProjectId <= FirstProjectId + j <= 209
    ensures FirstProjectId + (ProjectCount - 1) == 209
  {
  }

  // ------------------------------------------------------------------------
  // CSV flattening
  // ------------------------------------------------------------------------

  /** A CSV cell before `csv` renders it. */
  datatype Cell = Text(s: string) | Int(i: int) | Num(r: real)

  /** `writer.writeheader()`. */
  function HeaderRow(fieldnames: seq<string>): (r: seq<Cell>)
    ensures |r| == |fieldnames| && forall i :: 0 <= i < |r| ==> r[i] == Text(fieldnames[i])
  {
    seq(|fieldnames|, i requires 0 <= i < |fieldnames| => Text(fieldnames[i]))
  }

  const HistoricalFields: seq<string> := [
    "store_id", "store_type", "square_footage", "market", "completion_date",
    "total_cost", "cost_per_sqft", "construction", "electrical", "hvac", "plumbing",
    "fixtures", "technology", "soft_costs", "timeline_days", "variance_from_budget"]

  /** The category columns are named by the category keys, in key order. */
  lemma HistoricalCategoryFields(i: nat)
    requires i < |CategoryOrder|
    ensures HistoricalFields[7 + i] == CategoryKey(CategoryOrder[i])
  {
  }

  /** The row `DictWriter` writes for one record: the row dictionary has exactly the field
      names as keys, so each column holds the value stored under its name. */
  function HistoricalRow(p: HistoricalProject): (r: seq<Cell>)
    ensures |r| == |HistoricalFields|
  {
    var c := p.categories;
    [Text(p.storeId), Text(p.storeType), Int(p.squareFootage), Text(p.market), Text(p.completionDate),
     Int(p.totalCost), Num(p.costPerSqft),
     Int(c.construction), Int(c.electrical), Int(c.hvac), Int(c.plumbing),
     Int(c.fixtures), Int(c.technology), Int(c.softCosts),
     Int(p.timelineDays), Int(p.varianceFromBudget)]
  }

  /** The category columns of a record's row hold its `categories`, column by key. */
  lemma HistoricalRowCategories(p: HistoricalProject, c: Category)
    ensures HistoricalFields[7 + CategoryIndex(c)] == CategoryKey(c)
    ensures HistoricalRow(p)[7 + CategoryIndex(c)] == Int(p.categories.At(c))
  {
    HistoricalCategoryFields(CategoryIndex(c));
  }

  /** The CSV loop: the header, then one row per record in record order. */
  method WriteHistoricalCsv(projects: seq<HistoricalProject>) returns (rows: seq<seq<Cell>>)
    ensures |rows| == |projects| + 1 && rows[0] == HeaderRow(HistoricalFields)
    ensures forall j :: 0 <= j < |projects| ==> rows[j + 1] == HistoricalRow(projects[j])
  {
    rows := [HeaderRow(HistoricalFields)];
    for j := 0 to |projects|
      invariant |rows| == j + 1 && rows[0] == HeaderRow(HistoricalFields)
      invariant forall i :: 0 <= i < j ==> rows[i + 1] == HistoricalRow(projects[i])
    {
      rows := rows + [HistoricalRow(projects[j])];
    }
  }

  /** One market of `regional_modifiers['markets']`; every market of the table carries a
      modifier for each of the seven categories. */
  datatype RegionalMarket = RegionalMarket(
    market: string, state: string, tier: string, modifiers: CategoryAmounts<real>, notes: string)

  const RegionalFields: seq<string> := [
    "market", "state", "tier", "construction", "electrical", "hvac",
    "plumbing", "fixtures", "technology", "soft_costs", "notes"]

  lemma RegionalCategoryFields(i: nat)
    requires i < |CategoryOrder|
    ensures RegionalFields[3 + i] == CategoryKey(CategoryOrder[i])
  {
  }

  /** `{'market': …, 'state': …, 'tier': …, **modifiers, 'notes': …}` as `DictWriter` writes it. */
  function RegionalRow(m: RegionalMarket): (r: seq<Cell>)
    ensures |r| == |RegionalFields|
    ensures r[0] == Text(m.market) && r[1] == Text(m.state) && r[2] == Text(m.tier) && r[10] == Text(m.notes)
    ensures forall c :: r[3 + CategoryIndex(c)] == Num(m.modifiers.At(c))
  {
    var x := m.modifiers;
    [Text(m.market), Text(m.state), Text(m.tier),
     Num(x.construction), Num(x.electrical), Num(x.hvac), Num(x.plumbing),
     Num(x.fixtures), Num(x.technology), Num(x.softCosts),
     Text(m.notes)]
  }

  /** The regional CSV loop: the header, then one row per market. */
  method WriteRegionalCsv(markets: seq<RegionalMarket>) returns (rows: seq<seq<Cell>>)
    ensures |rows| == |markets| + 1 && rows[0] == HeaderRow(RegionalFields)
    ensures forall j :: 0 <= j < |markets| ==> rows[j + 1] == RegionalRow(markets[j])
  {
    rows := [HeaderRow(RegionalFields)];
    for j := 0 to |markets|
      invariant |rows| == j + 1 && rows[0] == HeaderRow(RegionalFields)
      invariant forall i :: 0 <= i < j ==> rows[i + 1] == RegionalRow(markets[i])
    {
      rows := rows + [RegionalRow(markets[j])];
    }
  }
}
