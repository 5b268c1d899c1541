/** The seven cost categories a store budget is split into, in the key order of every
    `categories` dictionary, with Python's `int()` on a non-integral amount (truncation
    toward zero) and the fixed percentage split of a project's total cost. */
module CostCategories {
  import opened Common

  datatype Category = Construction | Electrical | Hvac | Plumbing | Fixtures | Technology | SoftCosts

  /** The categories in dictionary key order. */
  const CategoryOrder: seq<Category> :=
    [Construction, Electrical, Hvac, Plumbing, Fixtures, Technology, SoftCosts]

  /** Position of a category in the key order. */
  function CategoryIndex(c: Category): (i: nat)
    ensures i < |CategoryOrder| && CategoryOrder[i] == c
  {
    match c
    case Construction => 0
    case Electrical => 1
    case Hvac => 2
    case Plumbing => 3
    case Fixtures => 4
    case Technology => 5
    case SoftCosts => 6
  }

  /** The dictionary key of a category. */
  function CategoryKey(c: Category): string {
    match c
    case Construction => "construction"
    case Electrical => "electrical"
    case Hvac => "hvac"
    case Plumbing => "plumbing"
    case Fixtures => "fixtures"
    case Technology => "technology"
    case SoftCosts => "soft_costs"
  }

  lemma CategoryKeyInjective(c: Category, d: Category)
    requires CategoryKey(c) == CategoryKey(d)
    ensures c == d
  {
  }

  /** One amount per category; a `categories` dictionary with exactly the seven keys. */
  datatype CategoryAmounts<T> = CategoryAmounts(
    construction: T, electrical: T, hvac: T, plumbing: T, fixtures: T, technology: T, softCosts: T)
  {
    function At(c: Category): T {
      match c
      case Construction => construction
      case Electrical => electrical
      case Hvac => hvac
      case Plumbing => plumbing
      case Fixtures => fixtures
      case Technology => technology
      case SoftCosts => softCosts
    }

    /** The amounts in key order. */
    function InOrder(): (s: seq<T>)
      ensures |s| == |CategoryOrder| && forall i :: 0 <= i < |s| ==> s[i] == At(CategoryOrder[i])
    {
      [construction, electrical, hvac, plumbing, fixtures, technology, softCosts]
    }
  }

  /** The dictionary built by a comprehension over the seven keys. */
  function Tabulate<T>(f: Category -> T): (r: CategoryAmounts<T>)
    ensures forall c :: r.At(c) == f(c)
  {
    CategoryAmounts(f(Construction), f(Electrical), f(Hvac), f(Plumbing), f(Fixtures), f(Technology), f(SoftCosts))
  }

  /** The sum of the seven amounts. */
  function Total(a: CategoryAmounts<int>): int {
    Sum(a.InOrder())
  }

  // ------------------------------------------------------------------------
  // int() of an exact amount
  // ------------------------------------------------------------------------

  /** `int(x)`: truncation toward zero. */
  function Trunc(x: real): (i: int)
    ensures x >= 0.0 ==> 0 <= i && i as real <= x < i as real + 1.0
    ensures x < 0.0 ==> i <= 0 && i as real - 1.0 < x <= i as real
  {
    if x >= 0.0 then x.Floor else -((-x).Floor)
  }

  /** `int(a / b)` for a positive count `b`. */
  lemma TruncQuotientBounds(a: int, b: int, lo: int, hi: int)
    requires b > 0 && lo * b <= a <= hi * b
    ensures lo <= Trunc(a as real / b as real) <= hi
  {
    var q := a as real / b as real;
    assert (lo as real) * (b as real) <= a as real <= (hi as real) * (b as real);
    assert lo as real <= q <= hi as real;
  }

  // ------------------------------------------------------------------------
  // The percentage split of a project's total cost
  // ------------------------------------------------------------------------

  /** `construction_pct = 0.35` … `soft_costs_pct = 0.07`. */
  function Share(c: Category): (p: real)
    ensures 0.0 < p < 1.0
  {
    match c
    case Construction => 0.35
    case Electrical => 0.12
    case Hvac => 0.08
    case Plumbing => 0.05
    case Fixtures => 0.25
    case Technology => 0.08
    case SoftCosts => 0.07
  }

  /** The seven percentages add up to the whole cost. */
  lemma SharesSumToOne()
    ensures Share(Construction) + Share(Electrical) + Share(Hvac) + Share(Plumbing)
          + Share(Fixtures) + Share(Technology) + Share(SoftCosts) == 1.0
  {
  }

  /** `categories` of a project: `int(total_cost * pct)` per category. */
  function SplitCost(total: int): (r: CategoryAmounts<int>)
    ensures forall c :: r.At(c) == Trunc(total as real * Share(c))
  {
    Tabulate(c => Trunc(total as real * Share(c)))
  }

  /** Each truncated share of a non-negative total lies within one unit below its exact share. */
  lemma SplitCostAt(total: int, c: Category)
    requires total >= 0
    ensures 0 <= SplitCost(total).At(c) <= total
    ensures total as real * Share(c) - 1.0 < SplitCost(total).At(c) as real <= total as real * Share(c)
  {
    assert total as real * Share(c) <= total as real;
  }

  lemma SumOfSeven(s: seq<int>)
    requires |s| == 7
    ensures Sum(s) == s[0] + s[1] + s[2] + s[3] + s[4] + s[5] + s[6]
  {
    SumStep(s, 0);
    SumStep(s, 1);
    SumStep(s, 2);
    SumStep(s, 3);
    SumStep(s, 4);
    SumStep(s, 5);
    SumStep(s, 6);
    assert s[..7] == s;
  }

  /** The seven truncated shares of a non-negative total add up to at most the total and lose
      less than one unit per category. */
  lemma SplitCostTotal(total: int)
    requires total >= 0
    ensures total - 7 < Total(SplitCost(total)) <= total
  {
    var r := SplitCost(total);
    var t := total as real;
    SplitCostAt(total, Construction);
    SplitCostAt(total, Electrical);
    SplitCostAt(total, Hvac);
    SplitCostAt(total, Plumbing);
    SplitCostAt(total, Fixtures);
    SplitCostAt(total, Technology);
    SplitCostAt(total, SoftCosts);
    SumOfSeven(r.InOrder());
    var sum := r.construction + r.electrical + r.hvac + r.plumbing + r.fixtures + r.technology + r.softCosts;
    assert Total(r) == sum;
    var exact := t * 0.35 + t * 0.12 + t * 0.08 + t * 0.05 + t * 0.25 + t * 0.08 + t * 0.07;
    assert exact == t;
    assert sum as real <= exact;
    assert sum as real > exact - 7.0;
  }
}
