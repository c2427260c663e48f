/**
 * Static data of the progression model: the role ordinals, their labels and
 * the experience curve (cost of each level and running total of those costs
 * for levels 1..100).
 */
module Static {
  import opened Options

  // Role ordinals. The source keeps a role as a plain number.
  const SuperAdmin: int := 0
  const Admin: int := 1
  const PremiumMember: int := 2
  const Member: int := 3

  /** Label of a role ordinal; `None` for an id the label table lacks. */
  function RoleIDToText(id: int): (r: Option<string>)
    ensures r.Some? <==> SuperAdmin <= id <= Member
  {
    if id == SuperAdmin then Some("Super Admin")
    else if id == Admin then Some("Admin")
    else if id == PremiumMember then Some("Premium Member")
    else if id == Member then Some("Member")
    else None
  }

  /** Distinct roles have distinct labels. */
  lemma RoleLabelsDistinct(i: int, j: int)
    requires RoleIDToText(i).Some? && RoleIDToText(j).Some?
    ensures RoleIDToText(i) == RoleIDToText(j) <==> i == j
  {
  }

  /** Highest level the curve tables hold. */
  const MaxLevel: nat := 100

  /** Cost of the first level. */
  const FirstLevelCost: int := 10

  /** The growth step: the integer ceiling of 1.3 * c, that is of 13 * c / 10,
    * with 13 * c spelled out as 4c + 4c + 4c + c. */
  function CeilGrowth(c: int): int
  {
    var c4 := c + c + c + c;
    (c4 + c4 + c4 + c + 9) / 10
  }

  /** CeilGrowth(c) is the least integer r with 10 * r >= 13 * c. */
  lemma CeilGrowthIsCeiling(c: int)
    ensures 13 * c <= 10 * CeilGrowth(c) < 13 * c + 10
  {
  }

  /** Experience cost of level i: 10, then each level the integer ceiling
    * of 1.3 times the cost of the level before. */
  function Cost(i: nat): (r: int)
    requires 1 <= i <= MaxLevel
    ensures r >= FirstLevelCost
  {
    if i == 1 then FirstLevelCost else CeilGrowth(Cost(i - 1))
  }

  /**
   * Total experience needed to have completed levels 1..i. Total(0) == 0 is
   * the threshold before any level; the table itself starts at level 1.
   */
  function Total(i: nat): (r: int)
    requires i <= MaxLevel
  {
    if i == 0 then 0 else Total(i - 1) + Cost(i)
  }

  /** Sum of a sequence of costs. */
  function Sum(xs: seq<int>): int
  {
    if xs == [] then 0 else Sum(xs[..|xs| - 1]) + xs[|xs| - 1]
  }

  /** The costs of levels 1..n, in order. */
  function Costs(n: nat): seq<int>
    requires n <= MaxLevel
  {
    seq(n, k requires 0 <= k < n => Cost(k + 1))
  }

  /** The table's total at level i is the prefix sum of the costs of levels 1..i. */
  lemma {:induction false} TotalIsPrefixSum(i: nat)
    requires i <= MaxLevel
    ensures Total(i) == Sum(Costs(i))
  {
    if i > 0 {
      TotalIsPrefixSum(i - 1);
      assert Costs(i)[..i - 1] == Costs(i - 1);
    }
  }

  /** The first entries of both tables. */
  lemma CurveStart()
    ensures Cost(1) == 10 && Cost(2) == 13 && Cost(3) == 17 && Cost(4) == 23
    ensures Total(1) == 10 && Total(2) == 23 && Total(3) == 40 && Total(4) == 63
  {
  }

  /** Each level costs strictly more than the one before it. */
  lemma CostStrictlyIncreasing(i: nat)
    requires 1 <= i < MaxLevel
    ensures Cost(i) < Cost(i + 1)
  {
  }

  /** Totals grow strictly with the level. */
  lemma {:induction false} TotalStrictlyIncreasing(i: nat, j: nat)
    requires i < j <= MaxLevel
    ensures Total(i) < Total(j)
  {
    if i < j - 1 {
      TotalStrictlyIncreasing(i, j - 1);
    }
  }

  lemma TotalMonotone(i: nat, j: nat)
    requires i <= j <= MaxLevel
    ensures Total(i) <= Total(j)
  {
    if i < j {
      TotalStrictlyIncreasing(i, j);
    }
  }

  /** The cost table restricted to levels 1..n. */
  ghost function CostTable(n: nat): map<int, int>
    requires n <= MaxLevel
  {
    map k | 1 <= k <= n :: Cost(k)
  }

  /** The total table restricted to levels 1..n. */
  ghost function TotalTable(n: nat): map<int, int>
    requires n <= MaxLevel
  {
    map k | 1 <= k <= n :: Total(k)
  }

  /**
   * The loop that fills both tables at start-up: each table is keyed by the
   * levels 1..100, seeded with 10 at level 1 and filled forward.
   */
  method BuildExpMappings() returns (levelMap: map<int, int>, totalMap: map<int, int>)
    ensures levelMap == CostTable(MaxLevel)
    ensures totalMap == TotalTable(MaxLevel)
  {
    levelMap := map[1 := FirstLevelCost];
    totalMap := map[1 := FirstLevelCost];
    assert levelMap == CostTable(1);
    assert totalMap == TotalTable(1);
    var i := 2;
    while i <= MaxLevel
      invariant 2 <= i <= MaxLevel + 1
      invariant levelMap == CostTable(i - 1)
      invariant totalMap == TotalTable(i - 1)
    {
      var cost := CeilGrowth(levelMap[i - 1]);
      assert cost == Cost(i);
      var total := totalMap[i - 1] + cost;
      assert total == Total(i);
      levelMap := levelMap[i := cost];
      totalMap := totalMap[i := total];
      assert levelMap == CostTable(i);
      assert totalMap == TotalTable(i);
      i := i + 1;
    }
  }
}
