/** The JSON-RPC 2.0 endpoint `POST /api/mcp`: the tool catalog, the method dispatch and
    the four tools. */
module Mcp {
  import opened Wrappers
  import opened Types
  import opened Seqs
  import opened Store
  import opened Compute
  import opened Aggregate
  import V1Stats

  const JSONRPC := "2.0"
  const PROTOCOL_VERSION := "2024-11-05"
  const SERVER_NAME := "contractormargin-mcp"
  const SERVER_VERSION := "1.0.0"
  const PARSE_ERROR := -32700
  const METHOD_NOT_FOUND := -32601
  const AUTH_REQUIRED := "Authentication required. Please log in."

  /** A catalog entry: the tool's name, description, argument names and required ones. */
  datatype ToolSpec = ToolSpec(name: string, description: string, properties: seq<string>, required: seq<string>)

  const McpTools: seq<ToolSpec> := [
    ToolSpec("get_stats",
      "Get aggregated job margin statistics for the authenticated contractor account.",
      [], []),
    ToolSpec("create_job",
      "Create a new job for tracking labor and material costs.",
      ["name", "client_name", "job_type", "estimated_revenue"], ["name"]),
    ToolSpec("add_labor",
      "Add a labor entry to a job.",
      ["job_id", "tech_name", "hours", "hourly_rate", "date"],
      ["job_id", "tech_name", "hours", "hourly_rate"]),
    ToolSpec("add_material",
      "Add a material cost entry to a job.",
      ["job_id", "description", "cost", "date"], ["job_id", "description", "cost"])
  ]

  function ToolNames(tools: seq<ToolSpec>): (names: seq<string>)
    ensures |names| == |tools|
    ensures forall i :: 0 <= i < |tools| ==> names[i] == tools[i].name
  {
    seq(|tools|, i requires 0 <= i < |tools| => tools[i].name)
  }

  /** The catalog lists exactly the four tools, under distinct names, and every required
      argument is one of the tool's declared properties. */
  lemma CatalogShape()
    ensures ToolNames(McpTools) == ["get_stats", "create_job", "add_labor", "add_material"]
    ensures forall i, j :: 0 <= i < j < |McpTools| ==> McpTools[i].name != McpTools[j].name
    ensures forall t, f :: t in McpTools && f in t.required ==> f in t.properties
    ensures McpTools[0].required == []
    ensures McpTools[1].required == ["name"]
    ensures McpTools[2].required == ["job_id", "tech_name", "hours", "hourly_rate"]
    ensures McpTools[3].required == ["job_id", "description", "cost"]
  {
    assert ToolNames(McpTools) == ["get_stats", "create_job", "add_labor", "add_material"];
  }

  /** A JSON-RPC id: a string, a number or an explicit null. */
  datatype Id = StrId(s: string) | NumId(n: real) | NullId

  /** The arguments of a tool call, by their wire names; any may be absent. */
  datatype Args = Args(
    name: Option<string>, clientName: Option<string>, jobType: Option<JobType>,
    estimatedRevenue: Option<real>, jobId: Option<string>, techName: Option<string>,
    hours: Option<real>, hourlyRate: Option<real>, date: Option<string>,
    description: Option<string>, cost: Option<real>)

  /** `{}`: what a call without `arguments` falls back to. */
  const NoArgs := Args(None, None, None, None, None, None, None, None, None, None, None)

  datatype Params = Params(name: Option<string>, arguments: Option<Args>)

  /** A parsed request body; `id` is None when the key is absent (`undefined`). */
  datatype Request = Request(rpcMethod: Option<string>, id: Option<Id>, params: Option<Params>)

  /** Whether the argument with the given wire name carries a value. */
  function Present(a: Args, field: string): bool {
    match field
    case "name" => a.name.Some?
    case "client_name" => a.clientName.Some?
    case "job_type" => a.jobType.Some?
    case "estimated_revenue" => a.estimatedRevenue.Some?
    case "job_id" => a.jobId.Some?
    case "tech_name" => a.techName.Some?
    case "hours" => a.hours.Some?
    case "hourly_rate" => a.hourlyRate.Some?
    case "date" => a.date.Some?
    case "description" => a.description.Some?
    case "cost" => a.cost.Some?
    case _ => false
  }

  /** The arguments supply every argument the catalog requires of the named tool. */
  predicate Conforms(toolName: string, a: Args) {
    forall i :: 0 <= i < |McpTools| && McpTools[i].name == toolName ==>
      forall f :: f in McpTools[i].required ==> Present(a, f)
  }

  /** `(params?.name as string) || ''` */
  function ToolNameOf(p: Option<Params>): string {
    match p
    case None => ""
    case Some(ps) => StringOr(ps.name, "")
  }

  /** `(params?.arguments as Record<string, unknown>) || {}` */
  function ArgsOf(p: Option<Params>): Args {
    match p
    case None => NoArgs
    case Some(ps) => OptionOr(ps.arguments, NoArgs)
  }

  predicate IsCall(body: Option<Request>) {
    body.Some? && body.value.rpcMethod == Some("tools/call")
  }

  /** A tool call's arguments follow the catalog's input schema. */
  predicate CallConforms(body: Option<Request>) {
    IsCall(body) ==> Conforms(ToolNameOf(body.value.params), ArgsOf(body.value.params))
  }

  lemma ConformingArgs(toolName: string, a: Args)
    requires Conforms(toolName, a)
    ensures toolName == "create_job" ==> a.name.Some?
    ensures toolName == "add_labor" ==>
      a.jobId.Some? && a.techName.Some? && a.hours.Some? && a.hourlyRate.Some?
    ensures toolName == "add_material" ==> a.jobId.Some? && a.description.Some? && a.cost.Some?
  {
    assert McpTools[1].name == "create_job" && "name" in McpTools[1].required;
    assert McpTools[2].name == "add_labor";
    assert McpTools[2].required == ["job_id", "tech_name", "hours", "hourly_rate"];
    assert "job_id" in McpTools[2].required && "tech_name" in McpTools[2].required;
    assert "hours" in McpTools[2].required && "hourly_rate" in McpTools[2].required;
    assert McpTools[3].name == "add_material";
    assert McpTools[3].required == ["job_id", "description", "cost"];
    assert "job_id" in McpTools[3].required && "description" in McpTools[3].required;
    assert "cost" in McpTools[3].required;
  }

  /** `id ?? null` */
  function IdOrNull(id: Option<Id>): (r: Id)
    ensures id.Some? ==> r == id.value
    ensures id.None? ==> r == NullId
  {
    match id
    case Some(x) => x
    case None => NullId
  }

  /** `${method}` of an absent method prints `undefined`. */
  function MethodText(m: Option<string>): string {
    match m
    case Some(s) => s
    case None => "undefined"
  }

  /** The `get_stats` figures: like the REST summary without the accuracy. */
  datatype McpStats = McpStats(avgMargin: real, activeJobs: nat, flaggedJobs: nat, totalJobs: nat)

  /** The text of a tool result. Number formatting is kept as the numbers themselves. */
  datatype ToolText =
    | Message(text: string)
    | StatsJson(stats: McpStats)
    | LaborAdded(techName: string, hours: real, hourlyRate: real, cost: real)
    | MaterialAdded(description: string, cost: real)

  datatype Payload =
    | Initialized(protocolVersion: string, serverName: string, serverVersion: string)
    | ToolList(tools: seq<ToolSpec>)
    | ToolResult(content: ToolText, isError: bool)

  /** A JSON-RPC response: a `result` echoing the request id (absent when the request had
      none), or an `error`, whose id is the request's or null. */
  datatype Envelope =
    | ResultEnvelope(jsonrpc: string, id: Option<Id>, result: Payload)
    | ErrorEnvelope(jsonrpc: string, errorId: Id, code: int, message: string)

  /** `mcpError(id, code, message)` */
  function McpError(id: Id, code: int, message: string): (e: Envelope)
    ensures e.ErrorEnvelope? && e.jsonrpc == JSONRPC && e.errorId == id && e.code == code && e.message == message
  {
    ErrorEnvelope(JSONRPC, id, code, message)
  }

  function Reply(id: Option<Id>, p: Payload): Envelope {
    ResultEnvelope(JSONRPC, id, p)
  }

  /** Every response is JSON-RPC 2.0, and carries one of the two error codes when it is
      an error. */
  predicate WellFormed(e: Envelope) {
    e.jsonrpc == JSONRPC && (e.ErrorEnvelope? ==> e.code in {PARSE_ERROR, METHOD_NOT_FOUND})
  }

  /** `'Error: ' + message` of a caught store error; a thrown value that is not an `Error`
      reads `Unknown error`. */
  function ErrorText(f: Fault): (t: string)
    ensures |t| >= 7 && t[..7] == "Error: "
    ensures f.isErrorInstance ==> t == "Error: " + f.message
    ensures !f.isErrorInstance ==> t == "Error: Unknown error"
  {
    "Error: " + (if f.isErrorInstance then f.message else "Unknown error")
  }

  /** The `get_stats` figures of whatever the three reads returned. */
  function McpSummarize(f: Fetched): (s: McpStats)
    ensures s.totalJobs == |JobsOrEmpty(f)|
    ensures s.avgMargin == V1Stats.Summarize(f).avgMargin
    ensures s.activeJobs == V1Stats.Summarize(f).activeJobs
    ensures s.flaggedJobs == V1Stats.Summarize(f).flaggedJobs
    ensures s.activeJobs == |ActiveJobs(JoinFetched(f))| && s.flaggedJobs == |DangerJobs(JoinFetched(f))|
    ensures s.flaggedJobs <= s.totalJobs && s.activeJobs <= s.totalJobs
  {
    var ms := JoinFetched(f);
    StatsCountsBounded(ms);
    McpStats(Round1(MeanMargin(ms)), |ActiveJobs(ms)|, |DangerJobs(ms)|, |JobsOrEmpty(f)|)
  }

  lemma StatsCountsBounded(ms: seq<JobWithMargin>)
    ensures |ActiveJobs(ms)| <= |ms| && |DangerJobs(ms)| <= |ms|
  {
  }

  /** What the dispatcher does, decided before any store access. */
  datatype Action =
    | Respond(envelope: Envelope)
    | GetStats(id: Option<Id>, uid: string)
    | CreateJob(id: Option<Id>, job: NewJob)
    | AddLabor(id: Option<Id>, labor: NewLabor)
    | AddMaterial(id: Option<Id>, material: NewMaterial)

  /** The `create_job` row: the caller's id, the defaults '', residential and 0, and no
      status or actual revenue (left to the table's defaults). */
  function CreateJobRow(uid: string, a: Args): (row: NewJob)
    requires a.name.Some?
    ensures row.userId == uid && row.name == a.name.value
    ensures row.clientName == StringOr(a.clientName, "")
    ensures row.jobType == OptionOr(a.jobType, Residential)
    ensures row.estimatedRevenue == OptionOr(a.estimatedRevenue, 0.0)
    ensures row.status.None? && row.actualRevenue.None?
  {
    NewJob(uid, a.name.value, StringOr(a.clientName, ""), OptionOr(a.jobType, Residential),
           None, OptionOr(a.estimatedRevenue, 0.0), None)
  }

  /** The `add_labor` row: the caller's id, and today when no date is given. */
  function AddLaborRow(uid: string, a: Args, today: string): (row: NewLabor)
    requires a.jobId.Some? && a.techName.Some? && a.hours.Some? && a.hourlyRate.Some?
    ensures row.userId == uid && row.jobId == a.jobId.value && row.techName == a.techName.value
    ensures row.hours == a.hours.value && row.hourlyRate == a.hourlyRate.value
    ensures row.date == StringOr(a.date, today)
  {
    NewLabor(a.jobId.value, uid, a.techName.value, a.hours.value, a.hourlyRate.value,
             StringOr(a.date, today))
  }

  /** The `add_material` row: the caller's id, and today when no date is given. */
  function AddMaterialRow(uid: string, a: Args, today: string): (row: NewMaterial)
    requires a.jobId.Some? && a.description.Some? && a.cost.Some?
    ensures row.userId == uid && row.jobId == a.jobId.value
    ensures row.description == a.description.value && row.cost == a.cost.value
    ensures row.date == StringOr(a.date, today)
  {
    NewMaterial(a.jobId.value, uid, a.description.value, a.cost.value, StringOr(a.date, today))
  }

  /** The tool-call branch, once the request is known to be `tools/call`. */
  function PlanCall(id: Option<Id>, toolName: string, a: Args, user: Option<string>, today: string): (act: Action)
    requires user.Some? ==> Conforms(toolName, a)
    ensures user.None? ==> act == Respond(Reply(id, ToolResult(Message(AUTH_REQUIRED), true)))
    ensures user.Some? && toolName !in ToolNames(McpTools) ==>
      act == Respond(McpError(IdOrNull(id), METHOD_NOT_FOUND, "Tool not found: " + toolName))
    ensures act.Respond? <==> user.None? || toolName !in ToolNames(McpTools)
    ensures user.Some? && toolName == "get_stats" ==> act == GetStats(id, user.value)
    ensures act.CreateJob? <==> user.Some? && toolName == "create_job"
    ensures act.AddLabor? <==> user.Some? && toolName == "add_labor"
    ensures act.AddMaterial? <==> user.Some? && toolName == "add_material"
    ensures act.CreateJob? ==> act.id == id && a.name.Some? && act.job == CreateJobRow(user.value, a)
    ensures act.AddLabor? ==>
      && act.id == id
      && a.jobId.Some? && a.techName.Some? && a.hours.Some? && a.hourlyRate.Some?
      && act.labor == AddLaborRow(user.value, a, today)
    ensures act.AddMaterial? ==>
      && act.id == id
      && a.jobId.Some? && a.description.Some? && a.cost.Some?
      && act.material == AddMaterialRow(user.value, a, today)
  {
    CatalogShape();
    if user.None? then Respond(Reply(id, ToolResult(Message(AUTH_REQUIRED), true)))
    else
      ConformingArgs(toolName, a);
      if toolName == "get_stats" then GetStats(id, user.value)
      else if toolName == "create_job" then CreateJob(id, CreateJobRow(user.value, a))
      else if toolName == "add_labor" then AddLabor(id, AddLaborRow(user.value, a, today))
      else if toolName == "add_material" then AddMaterial(id, AddMaterialRow(user.value, a, today))
      else Respond(McpError(IdOrNull(id), METHOD_NOT_FOUND, "Tool not found: " + toolName))
  }

  /** The whole dispatch: a body that did not parse is -32700 with id null; `initialize`
      and `tools/list` answer at once; `tools/call` goes to the tool branch; any other
      method is -32601. */
  function Plan(body: Option<Request>, user: Option<string>, today: string): (act: Action)
    requires user.Some? ==> CallConforms(body)
    ensures body.None? ==> act == Respond(McpError(NullId, PARSE_ERROR, "Parse error"))
    ensures body.Some? && body.value.rpcMethod == Some("initialize") ==>
      act == Respond(Reply(body.value.id, Initialized(PROTOCOL_VERSION, SERVER_NAME, SERVER_VERSION)))
    ensures body.Some? && body.value.rpcMethod == Some("tools/list") ==>
      act == Respond(Reply(body.value.id, ToolList(McpTools)))
    ensures IsCall(body) ==>
      act == PlanCall(body.value.id, ToolNameOf(body.value.params), ArgsOf(body.value.params), user, today)
    ensures body.Some? && body.value.rpcMethod !in {Some("initialize"), Some("tools/list"), Some("tools/call")} ==>
      act == Respond(McpError(IdOrNull(body.value.id), METHOD_NOT_FOUND,
                              "Method not found: " + MethodText(body.value.rpcMethod)))
    ensures !IsCall(body) ==> act.Respond?
    ensures act.Respond? ==> WellFormed(act.envelope)
  {
    match body
    case None => Respond(McpError(NullId, PARSE_ERROR, "Parse error"))
    case Some(req) =>
      if req.rpcMethod == Some("initialize") then
        Respond(Reply(req.id, Initialized(PROTOCOL_VERSION, SERVER_NAME, SERVER_VERSION)))
      else if req.rpcMethod == Some("tools/list") then
        Respond(Reply(req.id, ToolList(McpTools)))
      else if req.rpcMethod == Some("tools/call") then
        PlanCall(req.id, ToolNameOf(req.params), ArgsOf(req.params), user, today)
      else
        Respond(McpError(IdOrNull(req.id), METHOD_NOT_FOUND, "Method not found: " + MethodText(req.rpcMethod)))
  }

  /** Identity is consulted only by `tools/call`: any other request gets the same answer
      whoever is signed in. */
  lemma IdentityOnlyForToolCalls(body: Option<Request>, user: Option<string>, user': Option<string>, today: string)
    requires !IsCall(body)
    ensures Plan(body, user, today) == Plan(body, user', today)
  {
  }

  /** An authenticated call reaches a tool exactly when the tool is in the catalog, and an
      unauthenticated call is refused whatever tool it names. */
  lemma CatalogToolsAreDispatched(id: Option<Id>, toolName: string, a: Args, user: Option<string>, today: string)
    requires user.Some? ==> Conforms(toolName, a)
    ensures user.Some? ==>
      (PlanCall(id, toolName, a, user, today).Respond? <==>
       toolName !in ["get_stats", "create_job", "add_labor", "add_material"])
    ensures user.None? ==> PlanCall(id, toolName, a, user, today) == PlanCall(id, toolName, a, None, today)
  {
    CatalogShape();
  }

  /** The endpoint: executes the plan against the store. Reads go through `reader`;
      inserts append to `store`, and a store fault becomes an in-band error result. */
  method Handle(store: RecordStore, body: Option<Request>, user: Option<string>, reader: Reader,
                today: string, newId: string, now: string, fault: Option<Fault>) returns (env: Envelope)
    requires user.Some? ==> CallConforms(body)
    modifies store
    ensures WellFormed(env)
    ensures Plan(body, user, today).Respond? ==>
      env == Plan(body, user, today).envelope && store.Snapshot() == old(store.Snapshot())
    ensures Plan(body, user, today).GetStats? ==>
      && env == Reply(body.value.id, ToolResult(StatsJson(McpSummarize(reader(user.value, AnyOrder))), false))
      && store.Snapshot() == old(store.Snapshot())
    ensures !Plan(body, user, today).Respond? && !Plan(body, user, today).GetStats? && fault.Some? ==>
      && env == Reply(body.value.id, ToolResult(Message(ErrorText(fault.value)), true))
      && store.Snapshot() == old(store.Snapshot())
    ensures Plan(body, user, today).CreateJob? && fault.None? ==>
      var job := StoredJob(Plan(body, user, today).job, newId, now);
      && env == Reply(body.value.id, ToolResult(Message("Job created: " + job.name + " (ID: " + newId + ")"), false))
      && store.Snapshot() == old(store.Snapshot()).(jobs := old(store.jobs) + [job])
    ensures Plan(body, user, today).AddLabor? && fault.None? ==>
      var e := StoredLabor(Plan(body, user, today).labor, newId);
      && env == Reply(body.value.id, ToolResult(LaborAdded(e.techName, e.hours, e.hourlyRate, LaborLineCost(e)), false))
      && store.Snapshot() == old(store.Snapshot()).(labor := old(store.labor) + [e])
    ensures Plan(body, user, today).AddMaterial? && fault.None? ==>
      var e := StoredMaterial(Plan(body, user, today).material, newId);
      && env == Reply(body.value.id, ToolResult(MaterialAdded(e.description, e.cost), false))
      && store.Snapshot() == old(store.Snapshot()).(materials := old(store.materials) + [e])
  {
    var act := Plan(body, user, today);
    match act {
      case Respond(e) =>
        env := e;
      case GetStats(id, uid) =>
        env := Reply(id, ToolResult(StatsJson(McpSummarize(reader(uid, AnyOrder))), false));
      case CreateJob(id, row) =>
        var outcome := store.InsertJob(row, newId, now, fault);
        match outcome {
          case Failed(f) =>
            env := Reply(id, ToolResult(Message(ErrorText(f)), true));
          case Stored(job) =>
            env := Reply(id, ToolResult(Message("Job created: " + job.name + " (ID: " + job.id + ")"), false));
        }
      case AddLabor(id, row) =>
        var outcome := store.InsertLabor(row, newId, fault);
        match outcome {
          case Failed(f) =>
            env := Reply(id, ToolResult(Message(ErrorText(f)), true));
          case Stored(e) =>
            assert LaborLineCost(e) == row.hours * row.hourlyRate;
            env := Reply(id, ToolResult(LaborAdded(row.techName, row.hours, row.hourlyRate, row.hours * row.hourlyRate), false));
        }
      case AddMaterial(id, row) =>
        var outcome := store.InsertMaterial(row, newId, fault);
        match outcome {
          case Failed(f) =>
            env := Reply(id, ToolResult(Message(ErrorText(f)), true));
          case Stored(_) =>
            env := Reply(id, ToolResult(MaterialAdded(row.description, row.cost), false));
        }
    }
  }

  /** Against the honest store, `get_stats` summarizes exactly the caller's rows. */
  lemma GetStatsOfOwner(db: Db, uid: string)
    ensures McpSummarize(OwnerReader(db)(uid, AnyOrder)).totalJobs == |Filter(db.jobs, JobOwnedBy(uid))|
  {
    ReadIsOwnerScoped(db, uid, AnyOrder);
  }
}
