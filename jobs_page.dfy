/** The jobs list page: the per-job join on load, the add-job form and its submit, the
    status filter tabs and their counts. */
module JobsPage {
  import opened Wrappers
  import opened Types
  import opened Seqs
  import opened Store
  import opened Aggregate

  /** A filter tab: every job, or one status. */
  datatype StatusFilter = All | Only(status: JobStatus)

  /** The add-job form; the revenue fields hold the text typed in. */
  datatype JobForm = JobForm(
    name: string, clientName: string, jobType: JobType, status: JobStatus,
    estimatedRevenue: string, actualRevenue: string)

  /** The form's initial state, and the state every submit returns it to. */
  const EMPTY_FORM: JobForm := JobForm("", "", Residential, Active, "", "")

  /** `parseFloat(text) || 0`: the number read, or 0 when the read gives `NaN`
      (`None`) or zero. */
  function RevenueOrZero(parsed: Option<real>): (r: real)
    ensures parsed.None? ==> r == 0.0
    ensures parsed.Some? ==> r == parsed.value
  {
    match parsed
    case None => 0.0
    case Some(v) => if v != 0.0 then v else 0.0
  }

  /** The row a submit inserts: the caller's id, the form's text and choices, and both
      revenues as read by `parseFloat`. */
  function AddRow(form: JobForm, uid: string, parseFloat: string -> Option<real>): (row: NewJob)
    ensures row.userId == uid && row.name == form.name && row.clientName == form.clientName
    ensures row.jobType == form.jobType && row.status == Some(form.status)
    ensures row.estimatedRevenue == RevenueOrZero(parseFloat(form.estimatedRevenue))
    ensures row.actualRevenue == Some(RevenueOrZero(parseFloat(form.actualRevenue)))
  {
    NewJob(uid, form.name, form.clientName, form.jobType, Some(form.status),
           RevenueOrZero(parseFloat(form.estimatedRevenue)),
           Some(RevenueOrZero(parseFloat(form.actualRevenue))))
  }

  /** The jobs a tab lists: all of them, or exactly those with its status, in order. */
  function Filtered(jobs: seq<JobWithMargin>, filter: StatusFilter): (r: seq<JobWithMargin>)
    ensures filter.All? ==> r == jobs
    ensures filter.Only? ==> forall m :: m in r <==> m in jobs && m.job.status == filter.status
    ensures |r| <= |jobs|
  {
    match filter
    case All => jobs
    case Only(s) =>
      FilterMembers(jobs, HasStatus(s));
      Filter(jobs, HasStatus(s))
  }

  datatype StatusCounts = StatusCounts(all: nat, active: nat, completed: nat, invoiced: nat)

  /** The numbers on the tabs: every job, and the jobs of each status. */
  function CountStatuses(jobs: seq<JobWithMargin>): (c: StatusCounts)
    ensures c.all == |jobs|
    ensures c.all == c.active + c.completed + c.invoiced
  {
    StatusCountsPartition(jobs);
    StatusCounts(|jobs|, |Filter(jobs, HasStatus(Active))|,
                 |Filter(jobs, HasStatus(Completed))|, |Filter(jobs, HasStatus(Invoiced))|)
  }

  function CountFor(c: StatusCounts, filter: StatusFilter): nat {
    match filter
    case All => c.all
    case Only(Active) => c.active
    case Only(Completed) => c.completed
    case Only(Invoiced) => c.invoiced
  }

  /** Each tab's number is the length of the list that tab shows. */
  lemma TabCountMatchesList(jobs: seq<JobWithMargin>, filter: StatusFilter)
    ensures CountFor(CountStatuses(jobs), filter) == |Filtered(jobs, filter)|
  {
  }

  /** Against the honest store, a job inserted for the caller is in the caller's
      refetched list whenever the refetch's jobs read succeeds, whichever entry reads
      fail. */
  lemma {:induction false} AddedJobIsListed(db: Db, row: NewJob, id: string, now: string, faults: ReadFaults)
    requires !faults.jobs
    ensures var db' := Db(db.jobs + [StoredJob(row, id, now)], db.labor, db.materials);
      StoredJob(row, id, now) in JobsOf(JoinFetched(FailReads(Read(db', row.userId, NewestFirst), faults)))
  {
    var job := StoredJob(row, id, now);
    var db' := Db(db.jobs + [job], db.labor, db.materials);
    ReadIsOwnerScoped(db', row.userId, NewestFirst);
    assert job in db'.jobs;
    var f := FailReads(OwnerReader(db')(row.userId, NewestFirst), faults);
    assert JobsOf(JoinFetched(f)) == f.jobs.value;
  }

  /** The page's state. */
  class JobsPage {
    var jobs: seq<JobWithMargin>
    var filter: StatusFilter
    var loading: bool
    var showAddForm: bool
    var submitting: bool
    var form: JobForm

    constructor ()
      ensures jobs == [] && filter == All && loading && !showAddForm && !submitting
      ensures form == EMPTY_FORM
    {
      jobs := [];
      filter := All;
      loading := true;
      showAddForm := false;
      submitting := false;
      form := EMPTY_FORM;
    }

    /** The rows the current tab shows. */
    function Shown(): seq<JobWithMargin>
      reads this
    {
      Filtered(jobs, filter)
    }

    /** `fetchJobs`: loading is raised; without a user it stays raised and nothing else
        changes; with one, the list becomes the caller's newest-first jobs, each joined
        with its own entries, and loading ends. */
    method FetchJobs(user: Option<string>, reader: Reader)
      modifies this
      ensures user.None? ==> loading && jobs == old(jobs)
      ensures user.Some? ==> !loading && jobs == JoinFetched(reader(user.value, NewestFirst))
      ensures filter == old(filter) && showAddForm == old(showAddForm)
      ensures submitting == old(submitting) && form == old(form)
    {
      loading := true;
      if user.None? {
        return;
      }
      jobs := JoinFetched(reader(user.value, NewestFirst));
      loading := false;
    }

    /** `handleAddJob`: submitting is raised; without a user it stays raised and nothing
        else changes. With one, the form's row is inserted for the caller (a store fault is
        ignored), the form is reset and hidden, and the list is refetched as `fetchJobs`
        does: the user is looked up again (`refetchUser`), and the reads of the updated
        store marked in `faults` fail and count as empty. Submitting then ends, even when
        the second lookup finds no user and leaves loading raised. */
    method HandleAddJob(store: RecordStore, user: Option<string>, parseFloat: string -> Option<real>,
                        id: string, now: string, fault: Option<Fault>,
                        refetchUser: Option<string>, faults: ReadFaults)
      modifies this, store
      ensures user.None? ==> submitting && store.Snapshot() == old(store.Snapshot())
                             && jobs == old(jobs) && form == old(form) && showAddForm == old(showAddForm)
                             && loading == old(loading)
      ensures user.Some? ==>
        && store.jobs == old(store.jobs)
           + (if fault.None? then [StoredJob(AddRow(old(form), user.value, parseFloat), id, now)] else [])
        && store.labor == old(store.labor) && store.materials == old(store.materials)
        && form == EMPTY_FORM && !showAddForm && !submitting
      ensures user.Some? && refetchUser.None? ==> loading && jobs == old(jobs)
      ensures user.Some? && refetchUser.Some? ==>
        && !loading
        && jobs == JoinFetched(FailReads(Read(store.Snapshot(), refetchUser.value, NewestFirst), faults))
      ensures filter == old(filter)
    {
      submitting := true;
      if user.None? {
        return;
      }
      var row := AddRow(form, user.value, parseFloat);
      var _ := store.InsertJob(row, id, now, fault);
      form := EMPTY_FORM;
      showAddForm := false;
      var db := store.Snapshot();
      var reader: Reader := (u, order) => FailReads(Read(db, u, order), faults);
      FetchJobs(refetchUser, reader);
      submitting := false;
    }

    /** A tab press. */
    method SetFilter(f: StatusFilter)
      modifies this
      ensures filter == f && Shown() == Filtered(jobs, f)
      ensures jobs == old(jobs) && loading == old(loading) && showAddForm == old(showAddForm)
      ensures submitting == old(submitting) && form == old(form)
    {
      filter := f;
    }

    /** The "+ Add Job" button shows the form if hidden and hides it if shown. */
    method ToggleAddForm()
      modifies this
      ensures showAddForm == !old(showAddForm)
      ensures jobs == old(jobs) && filter == old(filter) && loading == old(loading)
      ensures submitting == old(submitting) && form == old(form)
    {
      showAddForm := !showAddForm;
    }

    /** The form's Cancel button (`show == false`) and the empty list's call to action
        (`show == true`). */
    method SetAddForm(show: bool)
      modifies this
      ensures showAddForm == show
      ensures jobs == old(jobs) && filter == old(filter) && loading == old(loading)
      ensures submitting == old(submitting) && form == old(form)
    {
      showAddForm := show;
    }
  }
}
