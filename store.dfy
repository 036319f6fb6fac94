/** The record store as the handlers use it. Every query a handler issues carries the
    caller's id (`.eq('user_id', id)`), and every insert stamps it. A `Reader` is the
    store seen through those queries: given the owner id and the requested order it
    returns the three result sets, each `None` when that read failed. `OwnerReader`
    is the store that answers them from a snapshot; `RecordStore` is the mutable store
    the inserting handlers append to. */
module Store {
  import opened Wrappers
  import opened Types
  import opened Seqs
  import opened Text

  /** A snapshot of the three owner-scoped tables. */
  datatype Db = Db(jobs: seq<Job>, labor: seq<LaborEntry>, materials: seq<MaterialEntry>)

  /** `.order('created_at', { ascending: false })`, or no ordering at all. */
  datatype JobOrder = AnyOrder | NewestFirst

  /** The results of the jobs, labor and materials reads. */
  datatype Fetched = Fetched(jobs: Option<seq<Job>>, labor: Option<seq<LaborEntry>>, materials: Option<seq<MaterialEntry>>)

  type Reader = (string, JobOrder) -> Fetched

  /** Which of the three reads of a fetch failed. */
  datatype ReadFaults = ReadFaults(jobs: bool, labor: bool, materials: bool)

  const NO_READ_FAULTS: ReadFaults := ReadFaults(false, false, false)

  /** The results of a fetch in which the reads marked in `faults` failed: each marked
      read comes back `None`, and every other read is the one given. */
  function FailReads(f: Fetched, faults: ReadFaults): (g: Fetched)
    ensures g.jobs == (if faults.jobs then None else f.jobs)
    ensures g.labor == (if faults.labor then None else f.labor)
    ensures g.materials == (if faults.materials then None else f.materials)
    ensures faults == NO_READ_FAULTS ==> g == f
  {
    Fetched(if faults.jobs then None else f.jobs,
            if faults.labor then None else f.labor,
            if faults.materials then None else f.materials)
  }

  /** What `(res.data as T[]) || []` leaves of a read: a failed read is an empty list. */
  function JobsOrEmpty(f: Fetched): seq<Job> { OptionOr(f.jobs, []) }
  function LaborOrEmpty(f: Fetched): seq<LaborEntry> { OptionOr(f.labor, []) }
  function MaterialsOrEmpty(f: Fetched): seq<MaterialEntry> { OptionOr(f.materials, []) }

  /** A store error: its message, and whether the thrown value is an `Error` instance. */
  datatype Fault = Fault(message: string, isErrorInstance: bool)

  function JobOwnedBy(uid: string): Job -> bool { (j: Job) => j.userId == uid }
  function LaborOwnedBy(uid: string): LaborEntry -> bool { (e: LaborEntry) => e.userId == uid }
  function MaterialOwnedBy(uid: string): MaterialEntry -> bool { (e: MaterialEntry) => e.userId == uid }

  /** Newest first: creation timestamps (ISO-8601 text) never increase along the list. */
  predicate NewestFirstOrdered(js: seq<Job>) {
    forall i, j :: 0 <= i < j < |js| ==> LexLe(js[j].createdAt, js[i].createdAt)
  }

  /** Insert `x` into a newest-first list, after every job at least as new. */
  function InsertNewest(x: Job, s: seq<Job>): (r: seq<Job>)
    ensures multiset(r) == multiset(s) + multiset{x}
    decreases |s|
  {
    if |s| == 0 then [x]
    else if LexLe(x.createdAt, s[0].createdAt) then
      assert s == [s[0]] + s[1..];
      [s[0]] + InsertNewest(x, s[1..])
    else [x] + s
  }

  lemma {:induction false} InsertNewestOrdered(x: Job, s: seq<Job>)
    requires NewestFirstOrdered(s)
    ensures NewestFirstOrdered(InsertNewest(x, s))
    decreases |s|
  {
    if |s| > 0 {
      if LexLe(x.createdAt, s[0].createdAt) {
        InsertNewestOrdered(x, s[1..]);
        var rest := InsertNewest(x, s[1..]);
        forall y | y in rest ensures LexLe(y.createdAt, s[0].createdAt) {
          assert y in multiset(rest);
          if y != x {
            assert y in multiset(s[1..]);
            var k :| 0 <= k < |s[1..]| && s[1..][k] == y;
            assert s[k + 1] == y;
          }
        }
        ConsOrdered(s[0], rest);
      } else {
        LexLeTotal(x.createdAt, s[0].createdAt);
        forall y | y in s ensures LexLe(y.createdAt, x.createdAt) {
          var k :| 0 <= k < |s| && s[k] == y;
          if k > 0 {
            LexLeTransitive(s[k].createdAt, s[0].createdAt, x.createdAt);
          }
        }
        ConsOrdered(x, s);
      }
    }
  }

  /** A job no older than every job of a newest-first list can go in front of it. */
  lemma ConsOrdered(h: Job, rest: seq<Job>)
    requires NewestFirstOrdered(rest)
    requires forall y :: y in rest ==> LexLe(y.createdAt, h.createdAt)
    ensures NewestFirstOrdered([h] + rest)
  {
    var r := [h] + rest;
    forall i, j | 0 <= i < j < |r| ensures LexLe(r[j].createdAt, r[i].createdAt) {
      assert r[j] == rest[j - 1];
      if i > 0 {
        assert r[i] == rest[i - 1];
      }
    }
  }

  /** What the store's descending `created_at` order yields: the same jobs, newest first.
      The order among identical timestamps is this model's choice. */
  function SortNewestFirst(js: seq<Job>): (r: seq<Job>)
    ensures multiset(r) == multiset(js)
    ensures NewestFirstOrdered(r)
    decreases |js|
  {
    if |js| == 0 then []
    else
      var sorted := SortNewestFirst(js[..|js| - 1]);
      InsertNewestOrdered(js[|js| - 1], sorted);
      assert js == js[..|js| - 1] + [js[|js| - 1]];
      InsertNewest(js[|js| - 1], sorted)
  }

  /** The owner-scoped reads: the caller's rows and no others. */
  function Read(db: Db, uid: string, order: JobOrder): Fetched
  {
    var jobs := Filter(db.jobs, JobOwnedBy(uid));
    Fetched(Some(if order == NewestFirst then SortNewestFirst(jobs) else jobs),
            Some(Filter(db.labor, LaborOwnedBy(uid))),
            Some(Filter(db.materials, MaterialOwnedBy(uid))))
  }

  /** The store answering from a snapshot. */
  function OwnerReader(db: Db): Reader {
    (uid, order) => Read(db, uid, order)
  }

  /** Owner isolation: a read returns every row of its owner and nothing of anyone
      else, and newest first when asked. */
  lemma ReadIsOwnerScoped(db: Db, uid: string, order: JobOrder)
    ensures var f := OwnerReader(db)(uid, order);
      && f.jobs.Some? && f.labor.Some? && f.materials.Some?
      && (forall j :: j in f.jobs.value <==> j in db.jobs && j.userId == uid)
      && (forall e :: e in f.labor.value <==> e in db.labor && e.userId == uid)
      && (forall e :: e in f.materials.value <==> e in db.materials && e.userId == uid)
      && (order == NewestFirst ==> NewestFirstOrdered(f.jobs.value))
  {
    var f := OwnerReader(db)(uid, order);
    var jobs := Filter(db.jobs, JobOwnedBy(uid));
    FilterMembers(db.jobs, JobOwnedBy(uid));
    FilterMembers(db.labor, LaborOwnedBy(uid));
    FilterMembers(db.materials, MaterialOwnedBy(uid));
    assert multiset(f.jobs.value) == multiset(jobs);
    forall j ensures j in f.jobs.value <==> j in jobs {
      assert j in f.jobs.value <==> j in multiset(f.jobs.value);
      assert j in jobs <==> j in multiset(jobs);
    }
  }

  /** The columns an insert supplies; `status` and `actualRevenue` may be left to the
      table's defaults. */
  datatype NewJob = NewJob(
    userId: string, name: string, clientName: string, jobType: JobType,
    status: Option<JobStatus>, estimatedRevenue: real, actualRevenue: Option<real>)

  datatype NewLabor = NewLabor(
    jobId: string, userId: string, techName: string, hours: real, hourlyRate: real, date: string)

  datatype NewMaterial = NewMaterial(
    jobId: string, userId: string, description: string, cost: real, date: string)

  /** The row the store keeps for an inserted job: its generated id and creation time,
      no completion time, and the column defaults `active` and 0. */
  function StoredJob(row: NewJob, id: string, now: string): (j: Job)
    ensures j.userId == row.userId && j.name == row.name && j.clientName == row.clientName
    ensures j.jobType == row.jobType && j.estimatedRevenue == row.estimatedRevenue
    ensures j.status == OptionOr(row.status, Active)
    ensures j.actualRevenue == OptionOr(row.actualRevenue, 0.0)
    ensures j.id == id && j.createdAt == now && j.completedAt.None?
  {
    Job(id, row.userId, row.name, row.clientName, row.jobType, OptionOr(row.status, Active),
        row.estimatedRevenue, OptionOr(row.actualRevenue, 0.0), now, None)
  }

  function StoredLabor(row: NewLabor, id: string): LaborEntry {
    LaborEntry(id, row.jobId, row.userId, row.techName, row.hours, row.hourlyRate, row.date)
  }

  function StoredMaterial(row: NewMaterial, id: string): MaterialEntry {
    MaterialEntry(id, row.jobId, row.userId, row.description, row.cost, row.date)
  }

  /** The outcome of an insert: the stored row, or the store's fault. */
  datatype Outcome<T> = Stored(row: T) | Failed(fault: Fault)

  /** A row another owner inserts never changes what `uid` reads. */
  lemma ForeignInsertInvisible(db: Db, job: Option<Job>, entry: Option<LaborEntry>,
                               material: Option<MaterialEntry>, uid: string, order: JobOrder)
    requires job.Some? ==> job.value.userId != uid
    requires entry.Some? ==> entry.value.userId != uid
    requires material.Some? ==> material.value.userId != uid
    ensures var db' := Db(db.jobs + (if job.Some? then [job.value] else []),
                          db.labor + (if entry.Some? then [entry.value] else []),
                          db.materials + (if material.Some? then [material.value] else []));
      Read(db', uid, order) == Read(db, uid, order)
  {
    FilterAppendNone(db.jobs, if job.Some? then [job.value] else [], JobOwnedBy(uid));
    FilterAppendNone(db.labor, if entry.Some? then [entry.value] else [], LaborOwnedBy(uid));
    FilterAppendNone(db.materials, if material.Some? then [material.value] else [], MaterialOwnedBy(uid));
  }

  /** The tables as rows appended in insertion order. */
  class RecordStore {
    var jobs: seq<Job>
    var labor: seq<LaborEntry>
    var materials: seq<MaterialEntry>

    constructor (db: Db)
      ensures Snapshot() == db
    {
      jobs, labor, materials := db.jobs, db.labor, db.materials;
    }

    function Snapshot(): Db
      reads this
    {
      Db(jobs, labor, materials)
    }

    /** `.from('jobs').insert(row).select().single()`: appends the stored row unless the
        store reports a fault, in which case nothing changes. */
    method InsertJob(row: NewJob, id: string, now: string, fault: Option<Fault>) returns (r: Outcome<Job>)
      modifies this
      ensures fault.None? ==> r == Stored(StoredJob(row, id, now))
                              && jobs == old(jobs) + [StoredJob(row, id, now)]
      ensures fault.Some? ==> r == Failed(fault.value) && jobs == old(jobs)
      ensures labor == old(labor) && materials == old(materials)
    {
      if fault.Some? {
        return Failed(fault.value);
      }
      var stored := StoredJob(row, id, now);
      jobs := jobs + [stored];
      r := Stored(stored);
    }

    /** `.from('labor_entries').insert(row)`. */
    method InsertLabor(row: NewLabor, id: string, fault: Option<Fault>) returns (r: Outcome<LaborEntry>)
      modifies this
      ensures fault.None? ==> r == Stored(StoredLabor(row, id))
                              && labor == old(labor) + [StoredLabor(row, id)]
      ensures fault.Some? ==> r == Failed(fault.value) && labor == old(labor)
      ensures jobs == old(jobs) && materials == old(materials)
    {
      if fault.Some? {
        return Failed(fault.value);
      }
      var stored := StoredLabor(row, id);
      labor := labor + [stored];
      r := Stored(stored);
    }

    /** `.from('material_entries').insert(row)`. */
    method InsertMaterial(row: NewMaterial, id: string, fault: Option<Fault>) returns (r: Outcome<MaterialEntry>)
      modifies this
      ensures fault.None? ==> r == Stored(StoredMaterial(row, id))
                              && materials == old(materials) + [StoredMaterial(row, id)]
      ensures fault.Some? ==> r == Failed(fault.value) && materials == old(materials)
      ensures jobs == old(jobs) && labor == old(labor)
    {
      if fault.Some? {
        return Failed(fault.value);
      }
      var stored := StoredMaterial(row, id);
      materials := materials + [stored];
      r := Stored(stored);
    }
  }
}
