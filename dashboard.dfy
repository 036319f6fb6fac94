/** The dashboard page: the login redirect, the seed-if-empty decision, and the figures
    drawn from the caller's joined jobs (active jobs and their value, danger jobs, the
    mean margin, the mean estimate accuracy and the five most recent jobs). */
module Dashboard {
  import opened Wrappers
  import opened Types
  import opened Seqs
  import opened Text
  import opened Compute
  import opened Store
  import opened Aggregate
  import V1Stats

  const LOGIN_PATH: string := "/auth/login"
  /** How many jobs the "Recent Jobs" table lists. */
  const RECENT_COUNT: nat := 5

  /** Seeding runs only when the exact count came back as 0; a failed count (`null`)
      does not seed. */
  predicate NeedsSeed(count: Option<nat>) { count == Some(0) }

  /** Completed or invoiced: the jobs whose accuracy the dashboard averages. */
  predicate Settled(m: JobWithMargin) { m.job.status == Completed || m.job.status == Invoiced }

  function SettledJobs(ms: seq<JobWithMargin>): seq<JobWithMargin> { Filter(ms, Settled) }

  /** The mean estimate accuracy of the settled jobs, with no estimate filter; 0 when
      there are none. */
  function MeanSettledAccuracy(ms: seq<JobWithMargin>): (a: real)
    ensures |SettledJobs(ms)| == 0 ==> a == 0.0
    ensures |SettledJobs(ms)| > 0 ==> a * (|SettledJobs(ms)| as real) == Sum(SettledJobs(ms), AccuracyOf)
  {
    var pool := SettledJobs(ms);
    Mean(Sum(pool, AccuracyOf), |pool|)
  }

  /** Best-known revenue summed over the active jobs only. */
  function TotalActiveValue(ms: seq<JobWithMargin>): real { Sum(ActiveJobs(ms), RevenueOf) }

  /** A job's contribution to the active value: its best-known revenue if active, else 0. */
  function ActiveContribution(m: JobWithMargin): real {
    if m.job.status == Active then RevenueOf(m) else 0.0
  }

  /** The first five jobs of the list, or all of a shorter one. */
  function Recent(ms: seq<JobWithMargin>): (r: seq<JobWithMargin>)
    ensures |r| == if |ms| < RECENT_COUNT then |ms| else RECENT_COUNT
    ensures r <= ms
  {
    if |ms| < RECENT_COUNT then ms else ms[..RECENT_COUNT]
  }

  datatype Overview = Overview(
    jobs: seq<JobWithMargin>,
    active: seq<JobWithMargin>,
    danger: seq<JobWithMargin>,
    avgMargin: real,
    avgAccuracy: real,
    totalActiveValue: real,
    recent: seq<JobWithMargin>)

  datatype Page = RedirectTo(path: string) | Dashboard(overview: Overview)

  /** The figures computed from the joined list. */
  function Summarize(ms: seq<JobWithMargin>): (o: Overview)
    ensures o.jobs == ms
  {
    Overview(ms, ActiveJobs(ms), DangerJobs(ms), MeanMargin(ms), MeanSettledAccuracy(ms),
             TotalActiveValue(ms), Recent(ms))
  }

  /** The page: a redirect before any read without a user; otherwise the figures of the
      caller's newest-first jobs joined with their entries, failed reads counting as
      empty. The reads see the store after the optional seed. */
  function Render(user: Option<string>, reader: Reader): (p: Page)
    ensures user.None? ==> p == RedirectTo(LOGIN_PATH)
    ensures user.Some? ==> p.Dashboard? && p.overview.jobs == JoinFetched(reader(user.value, NewestFirst))
  {
    match user
    case None => RedirectTo(LOGIN_PATH)
    case Some(uid) => Dashboard(Summarize(JoinFetched(reader(uid, NewestFirst))))
  }

  /** Against the honest store, the seed runs exactly for a user who owns no job yet. */
  lemma SeedOnlyForNewUsers(db: Db, uid: string)
    ensures NeedsSeed(Some(|Filter(db.jobs, JobOwnedBy(uid))|)) <==> forall j :: j in db.jobs ==> j.userId != uid
    ensures !NeedsSeed(None)
  {
    FilterMembers(db.jobs, JobOwnedBy(uid));
    if |Filter(db.jobs, JobOwnedBy(uid))| > 0 {
      assert Filter(db.jobs, JobOwnedBy(uid))[0] in Filter(db.jobs, JobOwnedBy(uid));
    }
  }

  /** Active jobs are exactly those with status `active`. */
  lemma ActiveJobsExactly(ms: seq<JobWithMargin>)
    ensures forall m :: m in Summarize(ms).active <==> m in ms && m.job.status == Active
  {
    FilterMembers(ms, HasStatus(Active));
  }

  /** Danger jobs are exactly those below the danger threshold. */
  lemma DangerJobsExactly(ms: seq<JobWithMargin>)
    requires forall m :: m in ms ==> Consistent(m)
    ensures forall m :: m in Summarize(ms).danger <==> m in ms && m.margin < DANGER_THRESHOLD
  {
    FilterMembers(ms, IsFlagged);
  }

  /** The active value counts each active job's best-known revenue and nothing else. */
  lemma ActiveValueCountsActiveOnly(ms: seq<JobWithMargin>)
    ensures Summarize(ms).totalActiveValue == Sum(ms, ActiveContribution)
  {
    forall x | x in ms ensures ActiveContribution(x) == if HasStatus(Active)(x) then RevenueOf(x) else 0.0 {
    }
    SumFilter(ms, HasStatus(Active), RevenueOf, ActiveContribution);
  }

  /** With no jobs every figure is 0 and both lists are empty. */
  lemma EmptyDashboardIsZero()
    ensures var o := Summarize([]);
      o.avgMargin == 0.0 && o.avgAccuracy == 0.0 && o.totalActiveValue == 0.0
      && o.active == [] && o.danger == [] && o.recent == []
  {
    assert SettledJobs([]) == [] && ActiveJobs([]) == [] && DangerJobs([]) == [];
  }

  /** The accuracy pool is the settled jobs, active ones never contribute. */
  lemma SettledJobsExactly(ms: seq<JobWithMargin>)
    ensures forall m :: m in SettledJobs(ms) <==> m in ms && m.job.status != Active
  {
    FilterMembers(ms, Settled);
  }

  /** With non-negative revenues the active value is non-negative. */
  lemma ActiveValueNonNegative(ms: seq<JobWithMargin>)
    requires forall m :: m in ms ==> RevenueOf(m) >= 0.0
    ensures TotalActiveValue(ms) >= 0.0
  {
    SumNonNegative(ActiveJobs(ms), RevenueOf);
  }

  /** When every settled job has a positive estimate, the dashboard's accuracy equals the
      stats route's. */
  lemma AccuracyAgreesWhenEstimated(ms: seq<JobWithMargin>)
    requires forall m :: m in ms && Settled(m) ==> m.job.estimatedRevenue > 0.0
    ensures MeanSettledAccuracy(ms) == V1Stats.MeanAccuracy(ms)
  {
    FilterCongruent(ms, Settled, V1Stats.SettledWithEstimate);
  }

  function ExampleJob(id: string, estimated: real, actual: real): Job {
    Job(id, "u", "Job " + id, "Client", Residential, Completed, estimated, actual, "2025-01-01", None)
  }

  /** Two settled jobs that share one user: one hit its estimate, one had no estimate. */
  function UnestimatedExample(): seq<JobWithMargin> {
    JoinAll([ExampleJob("a", 100.0, 100.0), ExampleJob("b", 0.0, 50.0)], [], [])
  }

  /** The dashboard counts a settled job without an estimate as 0% accurate, the stats
      route leaves it out: on the same jobs the two figures differ. */
  lemma AccuracyDiffersFromStats()
    ensures MeanSettledAccuracy(UnestimatedExample()) == 50.0
    ensures V1Stats.MeanAccuracy(UnestimatedExample()) == 100.0
  {
    var ms := UnestimatedExample();
    var a, b := ms[0], ms[1];
    assert a.estimateAccuracy == 100.0 && b.estimateAccuracy == 0.0;
    assert ms == [a] + [b];
    assert ms[1..] == [b] && [b][1..] == [];
    assert SettledJobs(ms) == ms;
    assert V1Stats.AccuracyPool(ms) == [a];
    assert Sum(ms, AccuracyOf) == Sum([a], AccuracyOf) + b.estimateAccuracy;
    SumCons(a, [], AccuracyOf);
    assert [a] + [] == [a];
  }

  /** Against the honest store, the recent table lists the first five of the caller's
      jobs and none of the unlisted jobs is newer than a listed one. */
  lemma RecentAreNewest(db: Db, uid: string)
    ensures var o := Render(Some(uid), OwnerReader(db)).overview;
      && o.recent <= o.jobs && |o.recent| <= RECENT_COUNT
      && (|o.jobs| >= RECENT_COUNT ==> |o.recent| == RECENT_COUNT)
      && forall i, k :: 0 <= i < |o.recent| <= k < |o.jobs| ==> LexLe(o.jobs[k].job.createdAt, o.recent[i].job.createdAt)
  {
    ReadIsOwnerScoped(db, uid, NewestFirst);
    var f := OwnerReader(db)(uid, NewestFirst);
    var o := Render(Some(uid), OwnerReader(db)).overview;
    forall i, k | 0 <= i < |o.recent| <= k < |o.jobs|
      ensures LexLe(o.jobs[k].job.createdAt, o.recent[i].job.createdAt)
    {
      assert o.recent[i] == o.jobs[i];
      assert o.jobs[i].job == f.jobs.value[i] && o.jobs[k].job == f.jobs.value[k];
    }
  }
}
