/** The aggregation engine every route and page repeats: the in-memory join of jobs
    with their own entries, the per-status and danger counts, the "0 when empty" means
    and `Math.round(x * 10) / 10`. */
module Aggregate {
  import opened Wrappers
  import opened Types
  import opened Seqs
  import opened Compute
  import opened Store

  function LaborForJob(id: string): LaborEntry -> bool { (e: LaborEntry) => e.jobId == id }
  function MaterialForJob(id: string): MaterialEntry -> bool { (e: MaterialEntry) => e.jobId == id }

  /** One job joined with the entries whose `job_id` is its id. */
  function JoinOne(job: Job, labor: seq<LaborEntry>, materials: seq<MaterialEntry>): (r: JobWithMargin)
    ensures r.job == job && Consistent(r)
  {
    ComputeJobMargin(job, Filter(labor, LaborForJob(job.id)), Filter(materials, MaterialForJob(job.id)))
  }

  /** The jobs underneath a list of derived records. */
  function JobsOf(ms: seq<JobWithMargin>): (js: seq<Job>)
    ensures |js| == |ms|
  {
    seq(|ms|, i requires 0 <= i < |ms| => ms[i].job)
  }

  /** `jobs.map(job => computeJobMargin(job, ...))`: one derived record per job, in order. */
  function JoinAll(jobs: seq<Job>, labor: seq<LaborEntry>, materials: seq<MaterialEntry>): (r: seq<JobWithMargin>)
    ensures |r| == |jobs|
    ensures forall i :: 0 <= i < |r| ==> r[i].job == jobs[i] && Consistent(r[i])
    ensures JobsOf(r) == jobs
  {
    seq(|jobs|, i requires 0 <= i < |jobs| => JoinOne(jobs[i], labor, materials))
  }

  /** The join over whatever the three reads returned, failed reads counting as empty. */
  function JoinFetched(f: Fetched): (r: seq<JobWithMargin>)
    ensures |r| == |JobsOrEmpty(f)|
  {
    JoinAll(JobsOrEmpty(f), LaborOrEmpty(f), MaterialsOrEmpty(f))
  }

  /** A job's derived record depends only on the entries that reference it: adding
      entries of other jobs changes nothing. */
  lemma JoinOneLocal(job: Job, labor: seq<LaborEntry>, otherLabor: seq<LaborEntry>,
                     materials: seq<MaterialEntry>, otherMaterials: seq<MaterialEntry>)
    requires forall e :: e in otherLabor ==> e.jobId != job.id
    requires forall e :: e in otherMaterials ==> e.jobId != job.id
    ensures JoinOne(job, labor + otherLabor, materials + otherMaterials) == JoinOne(job, labor, materials)
  {
    FilterAppendNone(labor, otherLabor, LaborForJob(job.id));
    FilterAppendNone(materials, otherMaterials, MaterialForJob(job.id));
  }

  /** The entries a job is costed from all reference it. */
  lemma JoinOneUsesOwnEntries(job: Job, labor: seq<LaborEntry>, materials: seq<MaterialEntry>)
    ensures var r := JoinOne(job, labor, materials);
      && r.totalLaborCost == TotalLaborCost(Filter(labor, LaborForJob(job.id)))
      && r.totalMaterialCost == TotalMaterialCost(Filter(materials, MaterialForJob(job.id)))
      && (forall e :: e in Filter(labor, LaborForJob(job.id)) <==> e in labor && e.jobId == job.id)
      && (forall e :: e in Filter(materials, MaterialForJob(job.id)) <==> e in materials && e.jobId == job.id)
  {
    FilterMembers(labor, LaborForJob(job.id));
    FilterMembers(materials, MaterialForJob(job.id));
  }

  // ----- per-record views used by the folds -----

  function MarginOf(m: JobWithMargin): real { m.margin }
  function AccuracyOf(m: JobWithMargin): real { m.estimateAccuracy }
  function RevenueOf(m: JobWithMargin): real { RevenueUsed(m.job) }
  function CostOf(m: JobWithMargin): real { m.totalCost }
  function LaborCostOf(m: JobWithMargin): real { m.totalLaborCost }
  function MaterialCostOf(m: JobWithMargin): real { m.totalMaterialCost }

  function HasStatus(s: JobStatus): JobWithMargin -> bool { (m: JobWithMargin) => m.job.status == s }
  predicate IsFlagged(m: JobWithMargin) { m.marginDanger }

  /** Jobs with status `active`. */
  function ActiveJobs(ms: seq<JobWithMargin>): seq<JobWithMargin> { Filter(ms, HasStatus(Active)) }
  /** Jobs flagged `margin_danger`. */
  function DangerJobs(ms: seq<JobWithMargin>): seq<JobWithMargin> { Filter(ms, IsFlagged) }

  /** The mean margin, 0 for no jobs. */
  function MeanMargin(ms: seq<JobWithMargin>): (m: real)
    ensures |ms| == 0 ==> m == 0.0
    ensures m * (|ms| as real) == Sum(ms, MarginOf)
  {
    Mean(Sum(ms, MarginOf), |ms|)
  }

  /** `Math.round(x * 10) / 10`: `Math.round` rounds halves up, so it is floor(y + 1/2). */
  function Round1(x: real): (r: real)
    ensures x - 0.05 < r <= x + 0.05
    ensures (r * 10.0).Floor as real == r * 10.0
  {
    ((x * 10.0 + 0.5).Floor as real) / 10.0
  }

  lemma Round1Monotone(x: real, y: real)
    requires x <= y
    ensures Round1(x) <= Round1(y)
  {
    assert (x * 10.0 + 0.5).Floor <= (y * 10.0 + 0.5).Floor;
  }

  /** Values already at one decimal are left alone; so rounding is idempotent. */
  lemma Round1Exact(k: int)
    ensures Round1(k as real / 10.0) == k as real / 10.0
  {
    var y := (k as real / 10.0) * 10.0 + 0.5;
    assert y == k as real + 0.5;
    assert y.Floor == k;
  }

  lemma Round1Idempotent(x: real)
    ensures Round1(Round1(x)) == Round1(x)
  {
    var k := (x * 10.0 + 0.5).Floor;
    Round1Exact(k);
  }

  /** Per-status counts partition any job set. */
  lemma StatusCountsPartition(ms: seq<JobWithMargin>)
    ensures |Filter(ms, HasStatus(Active))| + |Filter(ms, HasStatus(Completed))|
            + |Filter(ms, HasStatus(Invoiced))| == |ms|
  {
    CountPartition3(ms, HasStatus(Active), HasStatus(Completed), HasStatus(Invoiced));
  }

  /** Every derived record of entries with non-negative hours, rates and costs has a
      margin of at most 100. */
  lemma JoinedMarginsAtMost100(jobs: seq<Job>, labor: seq<LaborEntry>, materials: seq<MaterialEntry>)
    requires LaborNonNegative(labor) && MaterialsNonNegative(materials)
    ensures forall m :: m in JoinAll(jobs, labor, materials) ==> MarginOf(m) <= 100.0
  {
    var ms := JoinAll(jobs, labor, materials);
    forall m | m in ms ensures MarginOf(m) <= 100.0 {
      var i :| 0 <= i < |ms| && ms[i] == m;
      var job := jobs[i];
      var ls := Filter(labor, LaborForJob(job.id));
      var mats := Filter(materials, MaterialForJob(job.id));
      assert LaborNonNegative(ls);
      assert MaterialsNonNegative(mats);
      ComputedMarginAtMost100(job, ls, mats);
    }
  }

  /** ... and so is their mean, before and after rounding. */
  lemma MeanMarginAtMost100(jobs: seq<Job>, labor: seq<LaborEntry>, materials: seq<MaterialEntry>)
    requires LaborNonNegative(labor) && MaterialsNonNegative(materials)
    ensures MeanMargin(JoinAll(jobs, labor, materials)) <= 100.0
    ensures Round1(MeanMargin(JoinAll(jobs, labor, materials))) <= 100.0
  {
    var ms := JoinAll(jobs, labor, materials);
    JoinedMarginsAtMost100(jobs, labor, materials);
    MeanAtMost(ms, MarginOf, 100.0);
    Round1Monotone(MeanMargin(ms), 100.0);
    Round1Exact(1000);
  }

  /** The mean margin does not depend on the order of the jobs. */
  lemma MeanMarginOrderInsensitive(ms: seq<JobWithMargin>, ms': seq<JobWithMargin>)
    requires multiset(ms) == multiset(ms')
    ensures MeanMargin(ms) == MeanMargin(ms')
  {
    SumPermutation(ms, ms', MarginOf);
    assert |ms| == |multiset(ms)| == |multiset(ms')| == |ms'|;
  }
}
