/** The margin calculator and the three-tier margin classification. */
module Compute {
  import opened Wrappers
  import opened Types
  import opened Seqs

  /** The danger threshold: a margin strictly below it is in danger. */
  const DANGER_THRESHOLD: real := 20.0
  /** The healthy threshold: a margin at or above it is healthy. */
  const HEALTHY_THRESHOLD: real := 30.0

  function LaborLineCost(e: LaborEntry): real { e.hours * e.hourlyRate }

  function MaterialLineCost(e: MaterialEntry): real { e.cost }

  /** Σ hours × hourly rate over the supplied entries (no filtering here). */
  function TotalLaborCost(labor: seq<LaborEntry>): real { Sum(labor, LaborLineCost) }

  /** Σ cost over the supplied entries. */
  function TotalMaterialCost(materials: seq<MaterialEntry>): real { Sum(materials, MaterialLineCost) }

  /** Best-known revenue, `actual_revenue || estimated_revenue`: the actual figure
      whenever it is non-zero, otherwise the estimate. */
  function RevenueUsed(job: Job): (r: real)
    ensures job.actualRevenue != 0.0 ==> r == job.actualRevenue
    ensures job.actualRevenue == 0.0 ==> r == job.estimatedRevenue
  {
    if job.actualRevenue != 0.0 then job.actualRevenue else job.estimatedRevenue
  }

  /** Margin percentage, 0 when there is no positive revenue to divide by. */
  function MarginPercent(revenue: real, cost: real): (m: real)
    ensures revenue <= 0.0 ==> m == 0.0
    ensures revenue > 0.0 ==> m * revenue == (revenue - cost) * 100.0
  {
    if revenue > 0.0 then ((revenue - cost) / revenue) * 100.0 else 0.0
  }

  /** Actual revenue as a percentage of the estimate, 0 when there is no positive estimate. */
  function EstimateAccuracy(estimated: real, actual: real): (a: real)
    ensures estimated <= 0.0 ==> a == 0.0
    ensures estimated > 0.0 ==> a * estimated == actual * 100.0
  {
    if estimated > 0.0 then (actual / estimated) * 100.0 else 0.0
  }

  /** A derived record whose fields hang together as the calculator makes them. */
  predicate Consistent(r: JobWithMargin) {
    && r.totalCost == r.totalLaborCost + r.totalMaterialCost
    && (r.marginDanger <==> r.margin < DANGER_THRESHOLD)
    && r.margin == MarginPercent(RevenueUsed(r.job), r.totalCost)
    && r.estimateAccuracy == EstimateAccuracy(r.job.estimatedRevenue, r.job.actualRevenue)
  }

  /** `computeJobMargin`: the job, unchanged, plus the six derived fields. */
  function ComputeJobMargin(job: Job, labor: seq<LaborEntry>, materials: seq<MaterialEntry>): (r: JobWithMargin)
    ensures r.job == job
    ensures r.totalLaborCost == TotalLaborCost(labor)
    ensures r.totalMaterialCost == TotalMaterialCost(materials)
    ensures Consistent(r)
  {
    var totalLaborCost := TotalLaborCost(labor);
    var totalMaterialCost := TotalMaterialCost(materials);
    var totalCost := totalLaborCost + totalMaterialCost;
    var margin := MarginPercent(RevenueUsed(job), totalCost);
    JobWithMargin(job, totalLaborCost, totalMaterialCost, totalCost, margin,
                  margin < DANGER_THRESHOLD,
                  EstimateAccuracy(job.estimatedRevenue, job.actualRevenue))
  }

  predicate LaborNonNegative(labor: seq<LaborEntry>) {
    forall i :: 0 <= i < |labor| ==> labor[i].hours >= 0.0 && labor[i].hourlyRate >= 0.0
  }

  predicate MaterialsNonNegative(materials: seq<MaterialEntry>) {
    forall i :: 0 <= i < |materials| ==> materials[i].cost >= 0.0
  }

  /** Labor cost is additive over concatenated entry lists; the empty list costs 0. */
  lemma LaborCostAppend(a: seq<LaborEntry>, b: seq<LaborEntry>)
    ensures TotalLaborCost(a + b) == TotalLaborCost(a) + TotalLaborCost(b)
    ensures TotalLaborCost([]) == 0.0
  {
    SumAppend(a, b, LaborLineCost);
  }

  lemma MaterialCostAppend(a: seq<MaterialEntry>, b: seq<MaterialEntry>)
    ensures TotalMaterialCost(a + b) == TotalMaterialCost(a) + TotalMaterialCost(b)
    ensures TotalMaterialCost([]) == 0.0
  {
    SumAppend(a, b, MaterialLineCost);
  }

  /** Costs do not depend on the order in which the store returns entries. */
  lemma CostsOrderInsensitive(labor: seq<LaborEntry>, labor': seq<LaborEntry>,
                              materials: seq<MaterialEntry>, materials': seq<MaterialEntry>)
    requires multiset(labor) == multiset(labor') && multiset(materials) == multiset(materials')
    ensures TotalLaborCost(labor) == TotalLaborCost(labor')
    ensures TotalMaterialCost(materials) == TotalMaterialCost(materials')
  {
    SumPermutation(labor, labor', LaborLineCost);
    SumPermutation(materials, materials', MaterialLineCost);
  }

  /** Non-negative hours, rates and costs give non-negative totals. */
  lemma CostsNonNegative(labor: seq<LaborEntry>, materials: seq<MaterialEntry>)
    requires LaborNonNegative(labor) && MaterialsNonNegative(materials)
    ensures TotalLaborCost(labor) >= 0.0
    ensures TotalMaterialCost(materials) >= 0.0
  {
    forall x | x in labor ensures LaborLineCost(x) >= 0.0 {
      var i :| 0 <= i < |labor| && labor[i] == x;
    }
    SumNonNegative(labor, LaborLineCost);
    SumNonNegative(materials, MaterialLineCost);
  }

  /** With positive revenue the margin is the profit share, so a non-negative cost keeps
      it at most 100, and it is non-negative exactly when the cost does not exceed the
      revenue. */
  lemma MarginBounds(revenue: real, cost: real)
    requires revenue > 0.0
    ensures cost >= 0.0 ==> MarginPercent(revenue, cost) <= 100.0
    ensures MarginPercent(revenue, cost) >= 0.0 <==> cost <= revenue
    ensures MarginPercent(revenue, cost) == 100.0 <==> cost == 0.0
  {
    var m := MarginPercent(revenue, cost);
    assert m * revenue == (revenue - cost) * 100.0;
    assert m * revenue - 100.0 * revenue == -cost * 100.0;
    assert (m - 100.0) * revenue == -cost * 100.0;
    if m < 0.0 { assert m * revenue < 0.0; }
    if m >= 0.0 { assert m * revenue >= 0.0; }
    if m > 100.0 { assert (m - 100.0) * revenue > 0.0; }
    if m < 100.0 { assert (m - 100.0) * revenue < 0.0; }
  }

  /** The calculator's margin for well-formed inputs lies at most 100. */
  lemma ComputedMarginAtMost100(job: Job, labor: seq<LaborEntry>, materials: seq<MaterialEntry>)
    requires LaborNonNegative(labor) && MaterialsNonNegative(materials)
    ensures ComputeJobMargin(job, labor, materials).margin <= 100.0
  {
    CostsNonNegative(labor, materials);
    var r := ComputeJobMargin(job, labor, materials);
    if RevenueUsed(job) > 0.0 {
      MarginBounds(RevenueUsed(job), r.totalCost);
    }
  }

  /** Under non-negative revenues, a positive actual revenue always supersedes the
      estimate, and only a zero actual lets the estimate through. Without that
      precondition `||` also lets a negative actual supersede (see NegativeActualUsed). */
  lemma RevenuePrecedence(job: Job)
    requires job.actualRevenue >= 0.0
    ensures job.actualRevenue > 0.0 ==> RevenueUsed(job) == job.actualRevenue
    ensures RevenueUsed(job) == job.estimatedRevenue ==> job.actualRevenue == 0.0 || job.actualRevenue == job.estimatedRevenue
    ensures RevenueUsed(job) == (if job.actualRevenue > 0.0 then job.actualRevenue else job.estimatedRevenue)
  {
  }

  /** `actual_revenue || estimated_revenue` tests non-zero, not positive. */
  lemma NegativeActualUsed(job: Job)
    requires job.actualRevenue < 0.0
    ensures RevenueUsed(job) == job.actualRevenue
    ensures ComputeJobMargin(job, [], []).margin == 0.0
  {
  }

  /** A job with no revenue and no entries: zero costs, zero margin (hence in danger),
      zero accuracy. */
  lemma ZeroJob(job: Job)
    requires job.estimatedRevenue == 0.0 && job.actualRevenue == 0.0
    ensures var r := ComputeJobMargin(job, [], []);
      r.totalCost == 0.0 && r.margin == 0.0 && r.marginDanger && r.estimateAccuracy == 0.0
  {
  }

  /** An actual revenue of 0 against a positive estimate reads as 0% accurate. */
  lemma NoActualsZeroAccuracy(estimated: real)
    requires estimated > 0.0
    ensures EstimateAccuracy(estimated, 0.0) == 0.0
  {
  }

  /** The worked example: 2 h at 50 and 3 h at 60 of labor plus 100 of material cost
      280 + 100 = 380, and against an actual revenue of 3000 (estimate 5000) the margin
      is (3000 - 380) / 3000 × 100. */
  lemma WorkedExample(job: Job, a: LaborEntry, b: LaborEntry, m: MaterialEntry)
    requires a.hours == 2.0 && a.hourlyRate == 50.0 && b.hours == 3.0 && b.hourlyRate == 60.0
    requires m.cost == 100.0
    requires job.estimatedRevenue == 5000.0 && job.actualRevenue == 3000.0
    ensures var r := ComputeJobMargin(job, [a, b], [m]);
      r.totalLaborCost == 280.0 && r.totalMaterialCost == 100.0 && r.totalCost == 380.0
      && r.margin == (3000.0 - 380.0) / 3000.0 * 100.0 && !r.marginDanger
      && r.estimateAccuracy == 60.0
  {
    assert [a, b][..1] == [a] && [a][..0] == [] && [m][..0] == [];
    assert Sum([a], LaborLineCost) == 100.0;
    assert Sum([a, b], LaborLineCost) == Sum([a], LaborLineCost) + LaborLineCost(b);
    assert Sum([m], MaterialLineCost) == Sum([m][..0], MaterialLineCost) + m.cost;
  }

  // ----- classification -----

  datatype Tier = Healthy | Acceptable | Danger

  /** The three tiers: at least 30, then [20, 30), then below 20. */
  function MarginTier(margin: real): (t: Tier)
    ensures t == Healthy <==> margin >= HEALTHY_THRESHOLD
    ensures t == Acceptable <==> DANGER_THRESHOLD <= margin < HEALTHY_THRESHOLD
    ensures t == Danger <==> margin < DANGER_THRESHOLD
  {
    if margin >= HEALTHY_THRESHOLD then Healthy
    else if margin >= DANGER_THRESHOLD then Acceptable
    else Danger
  }

  /** The text colour token of each tier. */
  function TierColor(t: Tier): string {
    match t
    case Healthy => "text-green-600"
    case Acceptable => "text-yellow-600"
    case Danger => "text-red-600"
  }

  /** The badge token of each tier. */
  function TierBadge(t: Tier): string {
    match t
    case Healthy => "bg-green-50 text-green-700"
    case Acceptable => "bg-yellow-50 text-yellow-700"
    case Danger => "bg-red-50 text-red-700"
  }

  /** `marginColor`, written as the source's own if-chain. */
  function MarginColor(margin: real): string {
    if margin >= 30.0 then "text-green-600"
    else if margin >= 20.0 then "text-yellow-600"
    else "text-red-600"
  }

  /** `marginBadgeClass`, written as the source's own if-chain. */
  function MarginBadgeClass(margin: real): string {
    if margin >= 30.0 then "bg-green-50 text-green-700"
    else if margin >= 20.0 then "bg-yellow-50 text-yellow-700"
    else "bg-red-50 text-red-700"
  }

  /** Both helpers classify by the same three tiers, and distinct tiers get distinct
      tokens. */
  lemma HelpersShareTiers(margin: real)
    ensures MarginColor(margin) == TierColor(MarginTier(margin))
    ensures MarginBadgeClass(margin) == TierBadge(MarginTier(margin))
    ensures forall t, u :: TierColor(t) == TierColor(u) ==> t == u
    ensures forall t, u :: TierBadge(t) == TierBadge(u) ==> t == u
  {
  }

  /** The red tier of either helper is shown exactly for records flagged in danger;
      a margin of exactly 20 is not. */
  lemma RedExactlyWhenDanger(r: JobWithMargin)
    requires Consistent(r)
    ensures MarginColor(r.margin) == "text-red-600" <==> r.marginDanger
    ensures MarginBadgeClass(r.margin) == "bg-red-50 text-red-700" <==> r.marginDanger
    ensures r.margin == 20.0 ==> !r.marginDanger && MarginTier(r.margin) == Acceptable
  {
  }
}
