/** The records of the contractor-margin store and the derived per-job view.
    Field names are the camel-case forms of the column and JSON names
    (`userId` is `user_id`, `totalLaborCost` is `total_labor_cost`, ...).
    Identifiers and timestamps are strings; money, hours and percentages are `real`. */
module Types {
  import opened Wrappers

  datatype Trade = Hvac | Plumbing | Electrical | General
  datatype JobType = Residential | Commercial
  datatype JobStatus = Active | Completed | Invoiced

  /** A contractor's profile row. */
  datatype Profile = Profile(id: string, userId: string, businessName: string, trade: Trade, createdAt: string)

  /** A job; `completedAt` is the one optional column. */
  datatype Job = Job(
    id: string,
    userId: string,
    name: string,
    clientName: string,
    jobType: JobType,
    status: JobStatus,
    estimatedRevenue: real,
    actualRevenue: real,
    createdAt: string,
    completedAt: Option<string>)

  /** One technician's time on one job, owned by one user. */
  datatype LaborEntry = LaborEntry(
    id: string, jobId: string, userId: string, techName: string,
    hours: real, hourlyRate: real, date: string)

  /** One material purchase for one job, owned by one user. */
  datatype MaterialEntry = MaterialEntry(
    id: string, jobId: string, userId: string, description: string,
    cost: real, date: string)

  /** A job together with exactly the six derived fields; never stored. */
  datatype JobWithMargin = JobWithMargin(
    job: Job,
    totalLaborCost: real,
    totalMaterialCost: real,
    totalCost: real,
    margin: real,
    marginDanger: bool,
    estimateAccuracy: real)

  /** The wire spellings of the string unions. */
  function StatusName(s: JobStatus): string {
    match s
    case Active => "active"
    case Completed => "completed"
    case Invoiced => "invoiced"
  }

  function JobTypeName(t: JobType): string {
    match t
    case Residential => "residential"
    case Commercial => "commercial"
  }

  function TradeName(t: Trade): string {
    match t
    case Hvac => "hvac"
    case Plumbing => "plumbing"
    case Electrical => "electrical"
    case General => "general"
  }

  /** Reading a status string: exactly the three spellings are statuses. */
  function ParseStatus(s: string): (r: Option<JobStatus>)
    ensures r.Some? ==> StatusName(r.value) == s
    ensures (exists t :: StatusName(t) == s) ==> r.Some?
  {
    if s == "active" then Some(Active)
    else if s == "completed" then Some(Completed)
    else if s == "invoiced" then Some(Invoiced)
    else None
  }

  /** Reading a job-type string: exactly the two spellings are job types. */
  function ParseJobType(s: string): (r: Option<JobType>)
    ensures r.Some? ==> JobTypeName(r.value) == s
    ensures (exists t :: JobTypeName(t) == s) ==> r.Some?
  {
    if s == "residential" then Some(Residential)
    else if s == "commercial" then Some(Commercial)
    else None
  }

  /** Reading a trade string: exactly the four spellings are trades. */
  function ParseTrade(s: string): (r: Option<Trade>)
    ensures r.Some? ==> TradeName(r.value) == s
    ensures (exists t :: TradeName(t) == s) ==> r.Some?
  {
    if s == "hvac" then Some(Hvac)
    else if s == "plumbing" then Some(Plumbing)
    else if s == "electrical" then Some(Electrical)
    else if s == "general" then Some(General)
    else None
  }

  /** Every status reads back from its spelling. */
  lemma StatusRoundTrip(s: JobStatus)
    ensures ParseStatus(StatusName(s)) == Some(s)
  {
  }

  lemma JobTypeRoundTrip(t: JobType)
    ensures ParseJobType(JobTypeName(t)) == Some(t)
  {
  }

  lemma TradeRoundTrip(t: Trade)
    ensures ParseTrade(TradeName(t)) == Some(t)
  {
  }
}
