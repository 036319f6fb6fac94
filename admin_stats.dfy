/** `GET /api/admin/stats`: the admin key gate and the platform-wide counts (profiles by
    trade, jobs by status and type, revenue, entry counts), read with the service role
    and so across every owner. */
module AdminStats {
  import opened Wrappers
  import opened Types
  import opened Seqs
  import opened Compute

  /** `key === ADMIN_API_KEY && !!ADMIN_API_KEY`: an absent header (`null`) never equals
      an unset variable (`undefined`), and the empty key is refused. */
  predicate CheckAdminKey(header: Option<string>, adminKey: Option<string>) {
    header == adminKey && adminKey.Some? && adminKey.value != ""
  }

  /** Access needs a configured, non-empty key and a header carrying exactly it. */
  lemma AdminKeyExactly(header: Option<string>, adminKey: Option<string>)
    ensures CheckAdminKey(header, adminKey) <==>
      exists k :: k != "" && header == Some(k) && adminKey == Some(k)
  {
    if CheckAdminKey(header, adminKey) {
      assert header == Some(adminKey.value);
    }
  }

  /** `actual_revenue || estimated_revenue || 0`. */
  function AdminRevenue(j: Job): real {
    if j.actualRevenue != 0.0 then j.actualRevenue
    else if j.estimatedRevenue != 0.0 then j.estimatedRevenue
    else 0.0
  }

  /** The admin revenue of a job is the best-known revenue the margin calculator uses. */
  lemma AdminRevenueIsRevenueUsed(j: Job)
    ensures AdminRevenue(j) == RevenueUsed(j)
  {
  }

  function TotalRevenue(jobs: seq<Job>): real { Sum(jobs, AdminRevenue) }

  /** The platform revenue is the sum of every job's best-known revenue. */
  lemma TotalRevenueIsBestKnown(jobs: seq<Job>)
    ensures TotalRevenue(jobs) == Sum(jobs, RevenueUsed)
  {
    SumCongruent(jobs, AdminRevenue, RevenueUsed);
  }

  function JobHasStatus(s: JobStatus): Job -> bool { (j: Job) => j.status == s }
  function JobHasType(t: JobType): Job -> bool { (j: Job) => j.jobType == t }
  function ProfileHasTrade(t: Trade): Profile -> bool { (p: Profile) => p.trade == t }

  /** The number of profiles of one trade. */
  function TradeCount(profiles: seq<Profile>, t: Trade): nat { |Filter(profiles, ProfileHasTrade(t))| }

  lemma TradeCountSnoc(profiles: seq<Profile>, p: Profile, t: Trade)
    ensures TradeCount(profiles + [p], t) == TradeCount(profiles, t) + (if p.trade == t then 1 else 0)
  {
    FilterAppend(profiles, [p], ProfileHasTrade(t));
    assert Filter([p], ProfileHasTrade(t)) == (if p.trade == t then [p] else []) + Filter([p][1..], ProfileHasTrade(t));
    assert [p][1..] == [];
  }

  /** The four trades partition the profiles. */
  lemma {:induction false} TradeCountsAddUp(profiles: seq<Profile>)
    ensures TradeCount(profiles, Hvac) + TradeCount(profiles, Plumbing)
            + TradeCount(profiles, Electrical) + TradeCount(profiles, General) == |profiles|
    decreases |profiles|
  {
    if |profiles| > 0 {
      var n := |profiles|;
      var init := profiles[..n - 1];
      TradeCountsAddUp(init);
      assert profiles == init + [profiles[n - 1]];
      TradeCountSnoc(init, profiles[n - 1], Hvac);
      TradeCountSnoc(init, profiles[n - 1], Plumbing);
      TradeCountSnoc(init, profiles[n - 1], Electrical);
      TradeCountSnoc(init, profiles[n - 1], General);
    }
  }

  /** A trade's entry in the breakdown, 0 when it has none. */
  function Entry(m: map<Trade, nat>, t: Trade): nat { if t in m then m[t] else 0 }

  /** The sum of the breakdown's values. */
  function BreakdownTotal(m: map<Trade, nat>): nat {
    Entry(m, Hvac) + Entry(m, Plumbing) + Entry(m, Electrical) + Entry(m, General)
  }

  /** `acc[t] = (acc[t] || 0) + 1`. */
  function Bump(acc: map<Trade, nat>, t: Trade): map<Trade, nat> { acc[t := Entry(acc, t) + 1] }

  /** Counting one more profile bumps its trade's entry and leaves the others. */
  lemma BumpCounts(acc: map<Trade, nat>, profiles: seq<Profile>, p: Profile)
    requires forall u :: Entry(acc, u) == TradeCount(profiles, u)
    ensures forall u :: Entry(Bump(acc, p.trade), u) == TradeCount(profiles + [p], u)
  {
    forall u ensures Entry(Bump(acc, p.trade), u) == TradeCount(profiles + [p], u) {
      TradeCountSnoc(profiles, p, u);
    }
  }

  /** `tradeBreakdown`: one key per trade that occurs, mapped to how many profiles have
      it; the values add up to the number of profiles. */
  method TradeBreakdown(profiles: seq<Profile>) returns (acc: map<Trade, nat>)
    ensures forall t :: t in acc <==> TradeCount(profiles, t) > 0
    ensures forall t :: t in acc ==> acc[t] == TradeCount(profiles, t)
    ensures BreakdownTotal(acc) == |profiles|
  {
    acc := map[];
    var i := 0;
    while i < |profiles|
      invariant 0 <= i <= |profiles|
      invariant forall t :: Entry(acc, t) == TradeCount(profiles[..i], t)
      invariant forall t :: t in acc ==> acc[t] > 0
    {
      BumpCounts(acc, profiles[..i], profiles[i]);
      acc := Bump(acc, profiles[i].trade);
      assert profiles[..i + 1] == profiles[..i] + [profiles[i]];
      i := i + 1;
    }
    assert profiles[..i] == profiles;
    TradeCountsAddUp(profiles);
  }

  datatype JobCounts = JobCounts(
    total: nat, active: nat, completed: nat, invoiced: nat,
    residential: nat, commercial: nat, totalRevenue: real)

  /** The jobs block of the response. */
  function CountJobs(jobs: seq<Job>): (c: JobCounts)
    ensures c.total == |jobs|
    ensures c.active + c.completed + c.invoiced == c.total
    ensures c.residential + c.commercial == c.total
    ensures c.totalRevenue == Sum(jobs, RevenueUsed)
  {
    TotalRevenueIsBestKnown(jobs);
    CountPartition3(jobs, JobHasStatus(Active), JobHasStatus(Completed), JobHasStatus(Invoiced));
    CountPartition2(jobs, JobHasType(Residential), JobHasType(Commercial));
    JobCounts(|jobs|,
              |Filter(jobs, JobHasStatus(Active))|,
              |Filter(jobs, JobHasStatus(Completed))|,
              |Filter(jobs, JobHasStatus(Invoiced))|,
              |Filter(jobs, JobHasType(Residential))|,
              |Filter(jobs, JobHasType(Commercial))|,
              TotalRevenue(jobs))
  }

  /** What the four service-role queries returned: rows (`None` when `data` is null)
      and exact counts (`None` when `count` is null). */
  datatype AdminReads = AdminReads(
    profiles: Option<seq<Profile>>, profileCount: Option<nat>,
    jobs: Option<seq<Job>>, laborCount: Option<nat>, materialCount: Option<nat>)

  datatype AdminStatsBody = AdminStatsBody(
    usersTotal: nat, byTrade: map<Trade, nat>, jobs: JobCounts, laborCount: nat, materialCount: nat)

  datatype AdminStatsResponse = Unauthorized | AdminStats(body: AdminStatsBody)

  function HttpStatus(r: AdminStatsResponse): (code: int)
    ensures code == 401 <==> r.Unauthorized?
    ensures code == 200 <==> r.AdminStats?
  {
    if r.Unauthorized? then 401 else 200
  }

  /** The handler. The gate comes before any read: without the key the results are never
      consulted. Missing rows count as none and missing counts as 0. */
  method Get(header: Option<string>, adminKey: Option<string>, results: AdminReads) returns (r: AdminStatsResponse)
    ensures !CheckAdminKey(header, adminKey) <==> r == Unauthorized
    ensures r.AdminStats? ==>
      && r.body.usersTotal == OptionOr(results.profileCount, 0)
      && r.body.jobs == CountJobs(OptionOr(results.jobs, []))
      && r.body.laborCount == OptionOr(results.laborCount, 0)
      && r.body.materialCount == OptionOr(results.materialCount, 0)
      && BreakdownTotal(r.body.byTrade) == |OptionOr(results.profiles, [])|
      && forall t :: t in r.body.byTrade ==> r.body.byTrade[t] == TradeCount(OptionOr(results.profiles, []), t)
  {
    if !CheckAdminKey(header, adminKey) {
      return Unauthorized;
    }
    var byTrade := TradeBreakdown(OptionOr(results.profiles, []));
    r := AdminStats(AdminStatsBody(
      OptionOr(results.profileCount, 0), byTrade, CountJobs(OptionOr(results.jobs, [])),
      OptionOr(results.laborCount, 0), OptionOr(results.materialCount, 0)));
  }
}
