/** `GET /api/v1/stats`: the caller's margin summary. */
module V1Stats {
  import opened Wrappers
  import opened Types
  import opened Seqs
  import opened Compute
  import opened Store
  import opened Aggregate

  datatype StatsBody = StatsBody(
    avgMargin: real, activeJobs: nat, flaggedJobs: nat, estimateAccuracy: real, totalJobs: nat)

  datatype StatsResponse = Unauthorized | Stats(body: StatsBody)

  function HttpStatus(r: StatsResponse): (code: int)
    ensures code == 401 <==> r.Unauthorized?
    ensures code == 200 <==> r.Stats?
  {
    if r.Unauthorized? then 401 else 200
  }

  /** The caller's identity. A `Bearer` authorization header is looked at and then
      ignored: identity always comes from the cookie session. */
  function ResolveUser(authorization: Option<string>, session: Option<string>): (user: Option<string>)
    ensures user == session
  {
    if authorization.Some? && |authorization.value| >= 7 && authorization.value[..7] == "Bearer " then
      session
    else
      session
  }

  /** Completed or invoiced, with a positive estimate: the jobs whose accuracy is averaged. */
  predicate SettledWithEstimate(m: JobWithMargin) {
    (m.job.status == Completed || m.job.status == Invoiced) && m.job.estimatedRevenue > 0.0
  }

  function AccuracyPool(ms: seq<JobWithMargin>): seq<JobWithMargin> { Filter(ms, SettledWithEstimate) }

  function MeanAccuracy(ms: seq<JobWithMargin>): (a: real)
    ensures |AccuracyPool(ms)| == 0 ==> a == 0.0
    ensures |AccuracyPool(ms)| > 0 ==> a * (|AccuracyPool(ms)| as real) == Sum(AccuracyPool(ms), AccuracyOf)
  {
    var pool := AccuracyPool(ms);
    Mean(Sum(pool, AccuracyOf), |pool|)
  }

  /** The summary of whatever the three reads returned. */
  function Summarize(f: Fetched): (b: StatsBody)
    ensures b.totalJobs == |JobsOrEmpty(f)|
    ensures b.activeJobs + |Filter(JoinFetched(f), HasStatus(Completed))|
            + |Filter(JoinFetched(f), HasStatus(Invoiced))| == b.totalJobs
    ensures b.activeJobs == |ActiveJobs(JoinFetched(f))|
    ensures b.flaggedJobs == |DangerJobs(JoinFetched(f))| && b.flaggedJobs <= b.totalJobs
    ensures b.avgMargin == Round1(MeanMargin(JoinFetched(f)))
    ensures b.estimateAccuracy == Round1(MeanAccuracy(JoinFetched(f)))
    ensures b.totalJobs == 0 ==> b == StatsBody(0.0, 0, 0, 0.0, 0)
  {
    var ms := JoinFetched(f);
    StatusCountsPartition(ms);
    assert |ms| == 0 ==> AccuracyPool(ms) == [] && ActiveJobs(ms) == [] && DangerJobs(ms) == [];
    StatsBody(
      Round1(MeanMargin(ms)),
      |ActiveJobs(ms)|,
      |DangerJobs(ms)|,
      Round1(MeanAccuracy(ms)),
      |JobsOrEmpty(f)|)
  }

  /** The jobs counted as flagged are exactly the joined jobs whose margin is in the
      danger band, and the active ones exactly those with status `active`. */
  lemma FlaggedJobsExactly(f: Fetched)
    ensures var ms := JoinFetched(f);
      forall m :: m in DangerJobs(ms) <==> m in ms && m.marginDanger && m.margin < DANGER_THRESHOLD
    ensures var ms := JoinFetched(f);
      forall m :: m in ActiveJobs(ms) <==> m in ms && m.job.status == Active
  {
    var ms := JoinFetched(f);
    FilterMembers(ms, IsFlagged);
    FilterMembers(ms, HasStatus(Active));
  }

  /** The handler: 401 without a user, before any read; otherwise the summary of the
      caller's unordered reads. */
  function Get(authorization: Option<string>, session: Option<string>, reader: Reader): (r: StatsResponse)
    ensures session.None? ==> r == Unauthorized
    ensures session.Some? ==> r.Stats? && r.body == Summarize(reader(session.value, AnyOrder))
  {
    match ResolveUser(authorization, session)
    case None => Unauthorized
    case Some(uid) => Stats(Summarize(reader(uid, AnyOrder)))
  }

  /** The authorization header never changes the response, and without a session the
      store is never consulted: any two stores give the same 401. */
  lemma HeaderAndStoreIrrelevance(h: Option<string>, h': Option<string>, session: Option<string>,
                                  reader: Reader, reader': Reader)
    ensures Get(h, session, reader) == Get(h', session, reader)
    ensures session.None? ==> Get(h, session, reader) == Get(h', session, reader') == Unauthorized
  {
  }

  /** The accuracy pool is exactly the completed or invoiced jobs with a positive
      estimate: active jobs never contribute. */
  lemma AccuracyPoolExactly(ms: seq<JobWithMargin>)
    ensures forall m :: m in AccuracyPool(ms) <==>
      m in ms && m.job.status != Active && m.job.estimatedRevenue > 0.0
  {
    FilterMembers(ms, SettledWithEstimate);
  }

  /** Against the honest store the totals count the caller's jobs, and the average margin
      of non-negative entries is at most 100. */
  lemma StatsOfOwner(db: Db, uid: string, h: Option<string>)
    requires LaborNonNegative(db.labor) && MaterialsNonNegative(db.materials)
    ensures var r := Get(h, Some(uid), OwnerReader(db));
      && r.body.totalJobs == |Filter(db.jobs, JobOwnedBy(uid))|
      && r.body.avgMargin <= 100.0
  {
    var f := Read(db, uid, AnyOrder);
    var labor := Filter(db.labor, LaborOwnedBy(uid));
    var materials := Filter(db.materials, MaterialOwnedBy(uid));
    assert LaborNonNegative(labor);
    assert MaterialsNonNegative(materials);
    MeanMarginAtMost100(Filter(db.jobs, JobOwnedBy(uid)), labor, materials);
  }
}
