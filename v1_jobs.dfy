/** `GET /api/v1/jobs` and `POST /api/v1/jobs`. */
module V1Jobs {
  import opened Wrappers
  import opened Types
  import opened Seqs
  import opened Store
  import opened Aggregate

  /** A parsed request body; every field may be absent. */
  datatype PostBody = PostBody(
    name: Option<string>, clientName: Option<string>, jobType: Option<JobType>,
    status: Option<JobStatus>, estimatedRevenue: Option<real>, actualRevenue: Option<real>)

  datatype JobsResponse =
    | Unauthorized
    | JobList(jobs: seq<JobWithMargin>)
    | BadRequest(error: string)
    | ServerError(error: string)
    | Created(job: Job)

  /** The status code each response is sent with; distinct response kinds get distinct
      codes, so the code alone tells which branch answered. */
  function HttpStatus(r: JobsResponse): (code: int)
    ensures code == 401 <==> r.Unauthorized?
    ensures code == 400 <==> r.BadRequest?
    ensures code == 500 <==> r.ServerError?
    ensures code == 200 <==> r.JobList?
    ensures code == 201 <==> r.Created?
  {
    match r
    case Unauthorized => 401
    case JobList(_) => 200
    case BadRequest(_) => 400
    case ServerError(_) => 500
    case Created(_) => 201
  }

  /** GET: 401 without a user; otherwise the caller's jobs, newest first, each joined with
      its own entries. */
  function Get(user: Option<string>, reader: Reader): (r: JobsResponse)
    ensures user.None? ==> r == Unauthorized
    ensures user.Some? ==> r.JobList? && r.jobs == JoinFetched(reader(user.value, NewestFirst))
  {
    match user
    case None => Unauthorized
    case Some(uid) => JobList(JoinFetched(reader(uid, NewestFirst)))
  }

  /** Against the honest store, GET lists exactly the caller's jobs, one record each,
      newest first. */
  lemma GetListsOwnJobsNewestFirst(db: Db, uid: string)
    ensures var r := Get(Some(uid), OwnerReader(db));
      && r.JobList?
      && |r.jobs| == |Filter(db.jobs, JobOwnedBy(uid))|
      && (forall j :: j in JobsOf(r.jobs) <==> j in db.jobs && j.userId == uid)
      && NewestFirstOrdered(JobsOf(r.jobs))
  {
    ReadIsOwnerScoped(db, uid, NewestFirst);
    var f := Read(db, uid, NewestFirst);
    assert JobsOf(JoinFetched(f)) == f.jobs.value;
    assert |f.jobs.value| == |Filter(db.jobs, JobOwnedBy(uid))| by {
      assert multiset(f.jobs.value) == multiset(Filter(db.jobs, JobOwnedBy(uid)));
    }
  }

  /** What POST decides before it touches the store. */
  datatype PostPlan = Reject(response: JobsResponse) | Insert(row: NewJob)

  function PlanPost(user: Option<string>, body: Option<PostBody>): (p: PostPlan)
    ensures user.None? ==> p == Reject(Unauthorized)
    ensures user.Some? && body.None? ==> p == Reject(BadRequest("Invalid JSON"))
    ensures user.Some? && body.Some? && StringOr(body.value.name, "") == ""
            ==> p == Reject(BadRequest("name is required"))
    ensures p.Reject? ==> HttpStatus(p.response) in {400, 401}
    ensures p.Insert? <==> user.Some? && body.Some? && StringOr(body.value.name, "") != ""
    ensures p.Insert? ==> && p.row.userId == user.value
                          && p.row.name == body.value.name.value
                          && p.row.clientName == StringOr(body.value.clientName, "")
                          && p.row.jobType == OptionOr(body.value.jobType, Residential)
                          && p.row.status == Some(OptionOr(body.value.status, Active))
                          && p.row.estimatedRevenue == OptionOr(body.value.estimatedRevenue, 0.0)
                          && p.row.actualRevenue == Some(OptionOr(body.value.actualRevenue, 0.0))
  {
    if user.None? then Reject(Unauthorized)
    else if body.None? then Reject(BadRequest("Invalid JSON"))
    else
      var b := body.value;
      if StringOr(b.name, "") == "" then Reject(BadRequest("name is required"))
      else Insert(NewJob(
        user.value, b.name.value, StringOr(b.clientName, ""), OptionOr(b.jobType, Residential),
        Some(OptionOr(b.status, Active)), OptionOr(b.estimatedRevenue, 0.0),
        Some(OptionOr(b.actualRevenue, 0.0))))
  }

  /** POST: rejects without touching the store, or inserts the caller's row and answers 201
      with the stored job (no derived fields), or 500 with the store's message. */
  method Post(store: RecordStore, user: Option<string>, body: Option<PostBody>,
              id: string, now: string, fault: Option<Fault>) returns (r: JobsResponse)
    modifies store
    ensures PlanPost(user, body).Reject? ==>
      r == PlanPost(user, body).response && store.Snapshot() == old(store.Snapshot())
    ensures PlanPost(user, body).Insert? && fault.None? ==>
      && r == Created(StoredJob(PlanPost(user, body).row, id, now))
      && store.Snapshot() == old(store.Snapshot()).(jobs := old(store.jobs) + [r.job])
      && r.job.userId == user.value
    ensures PlanPost(user, body).Insert? && fault.Some? ==>
      r == ServerError(fault.value.message) && store.Snapshot() == old(store.Snapshot())
  {
    var plan := PlanPost(user, body);
    if plan.Reject? {
      return plan.response;
    }
    var outcome := store.InsertJob(plan.row, id, now, fault);
    match outcome
    case Failed(f) =>
      r := ServerError(f.message);
    case Stored(job) =>
      r := Created(job);
  }
}
