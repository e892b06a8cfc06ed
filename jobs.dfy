/** JobService: the job lifecycle (close, pause, resume, partial update, the
    skill check), the matching-ratio ordering of applications, and the
    in-memory registry of background export tasks with its worker, its
    queries and its reaper. */
module Jobs {
  import opened Common
  import opened Domain
  import opened ExportTasks

  // ---------------------------------------------------------------------
  // Skills: findAllById, collected into a HashSet, must be as many as the
  // ids requested.
  // ---------------------------------------------------------------------

  function Elements(ids: seq<SkillId>): set<SkillId> {
    set i | i in ids
  }

  predicate Distinct(ids: seq<SkillId>) {
    forall i, j | 0 <= i < j < |ids| :: ids[i] != ids[j]
  }

  lemma {:induction false} ElementsCardinality(ids: seq<SkillId>)
    ensures |Elements(ids)| <= |ids|
    ensures |Elements(ids)| == |ids| <==> Distinct(ids)
  {
    if ids != [] {
      var t := ids[1..];
      ElementsCardinality(t);
      assert Elements(ids) == {ids[0]} + Elements(t);
      if ids[0] in t {
        assert Elements(ids) == Elements(t);
        var j :| 0 <= j < |t| && t[j] == ids[0];
        assert ids[0] == ids[j + 1];
      } else {
        assert |Elements(ids)| == |Elements(t)| + 1;
        if Distinct(t) {
          forall i, j | 0 <= i < j < |ids| ensures ids[i] != ids[j] {
            assert ids[j] == t[j - 1];
            if i > 0 { assert ids[i] == t[i - 1]; }
          }
        }
        if Distinct(ids) {
          forall i, j | 0 <= i < j < |t| ensures t[i] != t[j] {
            assert t[i] == ids[i + 1] && t[j] == ids[j + 1];
          }
        }
      }
    }
  }

  /** The skills a request names, or ResourceNotFound ("One or more skills do
      not exist") when fewer distinct skills are found than ids were sent. */
  function ResolveSkills(catalog: set<SkillId>, ids: seq<SkillId>): (r: Result<set<SkillId>>)
    ensures r.Ok? ==> r.value == Elements(ids) && r.value <= catalog
    ensures r.Err? ==> r.error == ResourceNotFound
  {
    var found := set i | i in ids && i in catalog;
    ElementsCardinality(ids);
    assert found <= Elements(ids);
    if |found| != |ids| then Err(ResourceNotFound)
    else
      assert |Elements(ids) - found| == 0 by {
        assert |Elements(ids) - found| == |Elements(ids)| - |found|;
      }
      Ok(found)
  }

  /** A request's skill ids are accepted exactly when every one exists and
      none is repeated: a repeated id is refused although it exists. */
  lemma SkillsAcceptedIff(catalog: set<SkillId>, ids: seq<SkillId>)
    ensures ResolveSkills(catalog, ids).Ok? <==> (forall i | 0 <= i < |ids| :: ids[i] in catalog) && Distinct(ids)
  {
    var found := set i | i in ids && i in catalog;
    ElementsCardinality(ids);
    if forall i | 0 <= i < |ids| :: ids[i] in catalog {
      assert found == Elements(ids);
    } else {
      var k :| 0 <= k < |ids| && ids[k] !in catalog;
      assert ids[k] in Elements(ids) - found;
      assert found < Elements(ids);
    }
  }

  // ---------------------------------------------------------------------
  // Job lifecycle
  // ---------------------------------------------------------------------

  datatype LifecycleOp = Close | Pause | Resume

  /** The status rule closeJob, pauseJob and resumeJob apply once the caller
      is known to own the job: the new status, or BusinessLogic. */
  function Lifecycle(op: LifecycleOp, s: JobStatus): Result<JobStatus> {
    match op
    case Close => if s == CLOSED then Err(BusinessLogic) else Ok(CLOSED)
    case Pause => if s == CLOSED || s == PAUSED then Err(BusinessLogic) else Ok(PAUSED)
    case Resume => if s == CLOSED || s == OPEN then Err(BusinessLogic) else Ok(OPEN)
  }

  /** Every accepted step changes the status, and repeating it is refused. */
  lemma LifecycleStepsChangeStatus(op: LifecycleOp, s: JobStatus)
    ensures Lifecycle(op, s).Ok? ==> Lifecycle(op, s).value != s
    ensures Lifecycle(op, s).Ok? ==> Lifecycle(op, Lifecycle(op, s).value).Err?
    ensures Lifecycle(op, s).Err? ==> Lifecycle(op, s).error == BusinessLogic
  {
  }

  /** CLOSED is final, only closing reaches it, and pause and resume undo
      each other. */
  lemma LifecycleShape(op: LifecycleOp, s: JobStatus)
    ensures Lifecycle(op, CLOSED).Err?
    ensures Lifecycle(op, s) == Ok(CLOSED) <==> op == Close && s != CLOSED
    ensures Lifecycle(Pause, OPEN) == Ok(PAUSED) && Lifecycle(Resume, PAUSED) == Ok(OPEN)
  {
  }

  /** The fields of JobUpdateRequest; None stands for a null field. */
  datatype JobUpdateRequest = JobUpdateRequest(
    title: Option<string>,
    jobType: Option<string>,
    seniority: Option<string>,
    workModel: Option<string>,
    location: Option<string>,
    description: Option<string>,
    skillIds: Option<seq<SkillId>>)

  /** The partial-update rule: a non-null request field replaces the job's
      field, a null one leaves it; `skills` is the resolved skill set when the
      request named skills. */
  function ApplyUpdate(v: JobView, req: JobUpdateRequest, skills: Option<set<SkillId>>): (w: JobView)
    ensures w.postedBy == v.postedBy && w.status == v.status
  {
    JobView(
      v.postedBy,
      v.status,
      req.title.GetOr(v.title),
      req.jobType.GetOr(v.jobType),
      req.seniority.GetOr(v.seniority),
      req.workModel.GetOr(v.workModel),
      req.location.GetOr(v.location),
      req.description.GetOr(v.description),
      skills.GetOr(v.skills))
  }

  /** An update that names nothing changes nothing, and applying the same
      update twice is the same as applying it once. */
  lemma ApplyUpdateLaws(v: JobView, req: JobUpdateRequest, skills: Option<set<SkillId>>)
    ensures ApplyUpdate(v, JobUpdateRequest(None, None, None, None, None, None, None), None) == v
    ensures ApplyUpdate(ApplyUpdate(v, req, skills), req, skills) == ApplyUpdate(v, req, skills)
  {
  }

  // ---------------------------------------------------------------------
  // Matching-ratio ordering:
  //   sorted(comparing(matchingRatio, nullsLast(Double::compareTo)).reversed())
  // ---------------------------------------------------------------------

  /** An application as the ordering sees it: its id and its nullable ratio. */
  datatype RatedApplication = RatedApplication(applicationId: ApplicationId, matchingRatio: Option<real>)

  datatype NullPlacement = NullsFirst | NullsLast

  /** `a` may come before `b`: ratios descending, null ratios at the given end. */
  predicate Precedes(a: RatedApplication, b: RatedApplication, nulls: NullPlacement) {
    match nulls
    case NullsFirst => a.matchingRatio.None? || (b.matchingRatio.Some? && a.matchingRatio.value >= b.matchingRatio.value)
    case NullsLast => b.matchingRatio.None? || (a.matchingRatio.Some? && a.matchingRatio.value >= b.matchingRatio.value)
  }

  ghost predicate SortedBy(s: seq<RatedApplication>, nulls: NullPlacement) {
    forall i, j | 0 <= i < j < |s| :: Precedes(s[i], s[j], nulls)
  }

  /** Insert x in front of the first element it may precede. */
  function Insert(x: RatedApplication, s: seq<RatedApplication>, nulls: NullPlacement): (r: seq<RatedApplication>)
    ensures multiset(r) == multiset(s) + multiset{x}
  {
    if s == [] then [x]
    else if Precedes(x, s[0], nulls) then [x] + s
    else
      assert s == [s[0]] + s[1..];
      [s[0]] + Insert(x, s[1..], nulls)
  }

  lemma PrecedesTotal(a: RatedApplication, b: RatedApplication, nulls: NullPlacement)
    ensures Precedes(a, b, nulls) || Precedes(b, a, nulls)
  {
  }

  lemma PrecedesTransitive(a: RatedApplication, b: RatedApplication, c: RatedApplication, nulls: NullPlacement)
    requires Precedes(a, b, nulls) && Precedes(b, c, nulls)
    ensures Precedes(a, c, nulls)
  {
  }

  /** A sorted list stays sorted with an element in front that may precede
      its head. */
  lemma PrependKeepsSorted(x: RatedApplication, s: seq<RatedApplication>, nulls: NullPlacement)
    requires SortedBy(s, nulls) && (s == [] || Precedes(x, s[0], nulls))
    ensures SortedBy([x] + s, nulls)
  {
    var r := [x] + s;
    forall i, j | 0 <= i < j < |r| ensures Precedes(r[i], r[j], nulls) {
      if i == 0 {
        if j > 1 { PrecedesTransitive(x, s[0], s[j - 1], nulls); }
      } else {
        assert r[i] == s[i - 1] && r[j] == s[j - 1];
      }
    }
  }

  /** A sorted list stays sorted with an element in front that may precede
      every element. */
  lemma PrependLeastKeepsSorted(y: RatedApplication, s: seq<RatedApplication>, nulls: NullPlacement)
    requires SortedBy(s, nulls) && forall e | e in s :: Precedes(y, e, nulls)
    ensures SortedBy([y] + s, nulls)
  {
    var r := [y] + s;
    forall i, j | 0 <= i < j < |r| ensures Precedes(r[i], r[j], nulls) {
      if i == 0 {
        assert r[j] == s[j - 1] && s[j - 1] in s;
      } else {
        assert r[i] == s[i - 1] && r[j] == s[j - 1];
      }
    }
  }

  lemma {:induction false} InsertKeepsSorted(x: RatedApplication, s: seq<RatedApplication>, nulls: NullPlacement)
    requires SortedBy(s, nulls)
    ensures SortedBy(Insert(x, s, nulls), nulls)
  {
    if s == [] || Precedes(x, s[0], nulls) {
      PrependKeepsSorted(x, s, nulls);
    } else {
      var tail := s[1..];
      assert SortedBy(tail, nulls) by {
        forall i, j | 0 <= i < j < |tail| ensures Precedes(tail[i], tail[j], nulls) {
          assert tail[i] == s[i + 1] && tail[j] == s[j + 1];
        }
      }
      InsertKeepsSorted(x, tail, nulls);
      var rest := Insert(x, tail, nulls);
      PrecedesTotal(x, s[0], nulls);
      forall e | e in rest ensures Precedes(s[0], e, nulls) {
        assert e in multiset(rest);
        if e != x {
          assert e in multiset(tail);
          var k :| 0 <= k < |tail| && tail[k] == e;
          assert s[k + 1] == e;
        }
      }
      PrependLeastKeepsSorted(s[0], rest, nulls);
    }
  }

  function SortRated(xs: seq<RatedApplication>, nulls: NullPlacement): (r: seq<RatedApplication>)
    ensures multiset(r) == multiset(xs)
    ensures SortedBy(r, nulls)
  {
    if xs == [] then []
    else
      assert xs == [xs[0]] + xs[1..];
      var rest := SortRated(xs[1..], nulls);
      InsertKeepsSorted(xs[0], rest, nulls);
      Insert(xs[0], rest, nulls)
  }

  /** The order the code produces: `.reversed()` reverses the null placement
      too, so applications without a ratio come FIRST. */
  function RatioOrder(xs: seq<RatedApplication>): seq<RatedApplication> {
    SortRated(xs, NullsFirst)
  }

  /** The ordering `nullsLast` was written to give: scored applications by
      descending ratio, then the unscored ones. */
  function IntendedRatioOrder(xs: seq<RatedApplication>): seq<RatedApplication> {
    SortRated(xs, NullsLast)
  }

  /** In the code's order an unscored application is never preceded by a
      scored one, and the scored ones descend. */
  lemma RatioOrderPutsUnscoredFirst(xs: seq<RatedApplication>, i: int, j: int)
    requires 0 <= i < j < |RatioOrder(xs)|
    ensures multiset(RatioOrder(xs)) == multiset(xs)
    ensures RatioOrder(xs)[j].matchingRatio.None? ==> RatioOrder(xs)[i].matchingRatio.None?
    ensures RatioOrder(xs)[i].matchingRatio.Some? && RatioOrder(xs)[j].matchingRatio.Some? ==>
              RatioOrder(xs)[i].matchingRatio.value >= RatioOrder(xs)[j].matchingRatio.value
  {
  }

  /** The input that shows it: an unscored application overtakes a scored one. */
  lemma RatioOrderCounterexample()
    ensures RatioOrder([RatedApplication(1, Some(0.9)), RatedApplication(2, None)])
         == [RatedApplication(2, None), RatedApplication(1, Some(0.9))]
  {
  }

  /** The intended order: a permutation, scored applications first and by
      descending ratio, unscored ones last. */
  lemma IntendedRatioOrderPutsUnscoredLast(xs: seq<RatedApplication>, i: int, j: int)
    requires 0 <= i < j < |IntendedRatioOrder(xs)|
    ensures multiset(IntendedRatioOrder(xs)) == multiset(xs)
    ensures IntendedRatioOrder(xs)[i].matchingRatio.None? ==> IntendedRatioOrder(xs)[j].matchingRatio.None?
    ensures IntendedRatioOrder(xs)[i].matchingRatio.Some? && IntendedRatioOrder(xs)[j].matchingRatio.Some? ==>
              IntendedRatioOrder(xs)[i].matchingRatio.value >= IntendedRatioOrder(xs)[j].matchingRatio.value
  {
  }

  // ---------------------------------------------------------------------
  // Export status permission and download URL
  // ---------------------------------------------------------------------

  /** `task.getJobId() == jobId` on two boxed Longs compares references. Two
      independently boxed values are the same object only when Long.valueOf
      served both from its cache, which holds -128..127. */
  predicate SameBoxedLong(a: JobId, b: JobId) {
    a == b && -128 <= a <= 127
  }

  /** The denial rule of getExportTaskStatus as written. */
  predicate StatusQueryDenied(isOwner: bool, taskJobId: JobId, jobId: JobId) {
    !isOwner && SameBoxedLong(taskJobId, jobId)
  }

  /** The rule with Objects.equals, as the other export endpoints compare ids. */
  predicate IntendedStatusQueryDenied(isOwner: bool, taskJobId: JobId, jobId: JobId) {
    !isOwner && taskJobId == jobId
  }

  /** As written: a non-owner is never denied a task of another job, and is
      let through for a task of a job whose id is 128 or more. */
  lemma StatusQueryDeniedAsWritten(taskJobId: JobId, jobId: JobId)
    ensures taskJobId != jobId ==> !StatusQueryDenied(false, taskJobId, jobId)
    ensures StatusQueryDenied(false, jobId, jobId) <==> -128 <= jobId <= 127
    ensures !StatusQueryDenied(false, 200, 200) && IntendedStatusQueryDenied(false, 200, 200)
    ensures forall o: bool :: StatusQueryDenied(o, taskJobId, jobId) ==> IntendedStatusQueryDenied(o, taskJobId, jobId)
  {
  }

  /** Corrected: every non-owner asking about a task of the named job is denied. */
  lemma IntendedStatusQueryDeniesNonOwners(jobId: JobId)
    ensures IntendedStatusQueryDenied(false, jobId, jobId)
    ensures forall t :: !IntendedStatusQueryDenied(true, t, jobId)
  {
  }

  const URL_PREFIX: string := "/api/v1/jobs/"
  const URL_MIDDLE: string := "/applications/export/"
  const URL_SUFFIX: string := "/download"

  function DownloadUrl(jobId: JobId, taskId: TaskId): string {
    URL_PREFIX + (IntToString(jobId) + (URL_MIDDLE + (taskId + URL_SUFFIX)))
  }

  lemma CancelPrefix(p: string, a: string, b: string)
    requires p + a == p + b
    ensures a == b
  {
    assert a == (p + a)[|p|..];
    assert b == (p + b)[|p|..];
  }

  lemma CancelSuffix(a: string, b: string, q: string)
    requires a + q == b + q
    ensures a == b
  {
    assert a == (a + q)[..|a|];
    assert b == (b + q)[..|b|];
  }

  /** A rendered long followed by text starting with '/' splits in one way
      only, since '/' is not a digit. */
  lemma SplitRenderedLong(j1: int, m1: string, j2: int, m2: string)
    requires |m1| > 0 && m1[0] == '/' && |m2| > 0 && m2[0] == '/'
    requires IntToString(j1) + m1 == IntToString(j2) + m2
    ensures j1 == j2 && m1 == m2
  {
    var d1, d2 := IntToString(j1), IntToString(j2);
    var s := d1 + m1;
    assert |d1| == |d2| by {
      assert s[|d1|] == '/' && s[|d2|] == '/';
    }
    assert d1 == s[..|d1|] && d2 == s[..|d2|];
    IntToStringInjective(j1, j2);
    CancelPrefix(d1, m1, m2);
  }

  /** A download URL names exactly one job and one task. */
  lemma DownloadUrlInjective(j1: JobId, t1: TaskId, j2: JobId, t2: TaskId)
    requires DownloadUrl(j1, t1) == DownloadUrl(j2, t2)
    ensures j1 == j2 && t1 == t2
  {
    var m1, m2 := URL_MIDDLE + (t1 + URL_SUFFIX), URL_MIDDLE + (t2 + URL_SUFFIX);
    CancelPrefix(URL_PREFIX, IntToString(j1) + m1, IntToString(j2) + m2);
    SplitRenderedLong(j1, m1, j2, m2);
    CancelPrefix(URL_MIDDLE, t1 + URL_SUFFIX, t2 + URL_SUFFIX);
    CancelSuffix(t1, t2, URL_SUFFIX);
  }

  /** The setter calls of updateJob, in the source's order: each field the
      request names is overwritten, the others are kept. */
  method SetRequestedFields(job: Job, request: JobUpdateRequest)
    modifies job
    ensures job.View() == ApplyUpdate(old(job.View()), request, None)
  {
    if request.title.Some? { job.title := request.title.value; }
    if request.jobType.Some? { job.jobType := request.jobType.value; }
    if request.seniority.Some? { job.seniority := request.seniority.value; }
    if request.workModel.Some? { job.workModel := request.workModel.value; }
    if request.location.Some? { job.location := request.location.value; }
    if request.description.Some? { job.description := request.description.value; }
  }

  /** The transaction's rollback: the job's fields return to a saved view. */
  method RollBack(job: Job, saved: JobView)
    modifies job
    ensures job.View() == saved
  {
    job.postedBy, job.status, job.title := saved.postedBy, saved.status, saved.title;
    job.jobType, job.seniority, job.workModel := saved.jobType, saved.seniority, saved.workModel;
    job.location, job.description, job.skills := saved.location, saved.description, saved.skills;
  }

  // ---------------------------------------------------------------------
  // The service
  // ---------------------------------------------------------------------

  /** What ApplicationExcelExportService.generateExcel did with the rows it
      was handed: the workbook bytes, or an exception and its message. */
  datatype ExcelOutcome = Generated(bytes: Bytes) | Threw(message: Option<string>)

  /** The calls JobService makes into the matching service's vector store. */
  datatype EmbeddingCall = StoreEmbedding(jobId: JobId) | DeleteEmbedding(jobId: JobId)

  class JobService {
    /** The job repository: the managed job entities by id. */
    var jobs: map<JobId, Job>
    /** The export registry. */
    var exportTasks: map<TaskId, ExportTask>
    /** The calls made into the vector store, oldest first. */
    var embeddingCalls: seq<EmbeddingCall>
    /** The tasks whose export worker has been started and has not finished. */
    ghost var workers: set<ExportTask>

    ghost predicate Valid()
      reads this, exportTasks.Values, workers
    {
      && (forall id | id in jobs :: jobs[id].id == id)
      && (forall id | id in exportTasks :: exportTasks[id].taskId == id && exportTasks[id].Settled())
      && (forall t | t in workers :: t.status == PROCESSING && t.Settled())
      && (forall id | id in exportTasks && exportTasks[id].status == PROCESSING :: exportTasks[id] in workers)
    }

    constructor (jobs: map<JobId, Job>)
      requires forall id | id in jobs :: jobs[id].id == id
      ensures Valid()
      ensures this.jobs == jobs && exportTasks == map[] && embeddingCalls == [] && workers == {}
    {
      this.jobs := jobs;
      exportTasks := map[];
      embeddingCalls := [];
      workers := {};
    }

    /** A task that has left PROCESSING has no worker left to write it, and
        no other method of the service writes a task: PROCESSING -> COMPLETED
        or FAILED happens at most once. */
    lemma TerminalTasksHaveNoWorker(t: ExportTask)
      requires Valid()
      requires t.status != PROCESSING
      ensures t !in workers
    {
    }

    method CloseJob(id: JobId, userId: UserId) returns (r: Result<JobStatus>)
      requires Valid()
      modifies (if id in jobs then {jobs[id]} else {}), this`embeddingCalls
      ensures Valid() && jobs == old(jobs) && exportTasks == old(exportTasks)
      ensures id !in jobs ==> r == Err(ResourceNotFound) && embeddingCalls == old(embeddingCalls)
      ensures id in jobs && old(jobs[id].postedBy) != userId ==>
                r == Err(OperationNotPermitted) && unchanged(jobs[id]) && embeddingCalls == old(embeddingCalls)
      ensures id in jobs && old(jobs[id].postedBy) == userId ==> r == Lifecycle(Close, old(jobs[id].status))
      ensures id in jobs && r.Err? ==> unchanged(jobs[id]) && embeddingCalls == old(embeddingCalls)
      ensures id in jobs && r.Ok? ==>
                jobs[id].View() == old(jobs[id].View()).(status := CLOSED)
                && embeddingCalls == old(embeddingCalls) + [DeleteEmbedding(id)]
    {
      if id !in jobs {
        return Err(ResourceNotFound);
      }
      var job := jobs[id];
      if job.postedBy != userId {
        return Err(OperationNotPermitted);
      }
      if job.status == CLOSED {
        return Err(BusinessLogic);
      }
      job.status := CLOSED;
      embeddingCalls := embeddingCalls + [DeleteEmbedding(job.id)];
      r := Ok(job.status);
    }

    method PauseJob(id: JobId, userId: UserId) returns (r: Result<JobStatus>)
      requires Valid()
      modifies (if id in jobs then {jobs[id]} else {}), this`embeddingCalls
      ensures Valid() && jobs == old(jobs) && exportTasks == old(exportTasks)
      ensures id !in jobs ==> r == Err(ResourceNotFound) && embeddingCalls == old(embeddingCalls)
      ensures id in jobs && old(jobs[id].postedBy) != userId ==>
                r == Err(OperationNotPermitted) && unchanged(jobs[id]) && embeddingCalls == old(embeddingCalls)
      ensures id in jobs && old(jobs[id].postedBy) == userId ==> r == Lifecycle(Pause, old(jobs[id].status))
      ensures id in jobs && r.Err? ==> unchanged(jobs[id]) && embeddingCalls == old(embeddingCalls)
      ensures id in jobs && r.Ok? ==>
                jobs[id].View() == old(jobs[id].View()).(status := PAUSED)
                && embeddingCalls == old(embeddingCalls) + [StoreEmbedding(id)]
    {
      if id !in jobs {
        return Err(ResourceNotFound);
      }
      var job := jobs[id];
      if job.postedBy != userId {
        return Err(OperationNotPermitted);
      }
      if job.status == CLOSED {
        return Err(BusinessLogic);
      }
      if job.status == PAUSED {
        return Err(BusinessLogic);
      }
      job.status := PAUSED;
      embeddingCalls := embeddingCalls + [StoreEmbedding(job.id)];
      r := Ok(job.status);
    }

    method ResumeJob(id: JobId, userId: UserId) returns (r: Result<JobStatus>)
      requires Valid()
      modifies (if id in jobs then {jobs[id]} else {}), this`embeddingCalls
      ensures Valid() && jobs == old(jobs) && exportTasks == old(exportTasks)
      ensures id !in jobs ==> r == Err(ResourceNotFound) && embeddingCalls == old(embeddingCalls)
      ensures id in jobs && old(jobs[id].postedBy) != userId ==>
                r == Err(OperationNotPermitted) && unchanged(jobs[id]) && embeddingCalls == old(embeddingCalls)
      ensures id in jobs && old(jobs[id].postedBy) == userId ==> r == Lifecycle(Resume, old(jobs[id].status))
      ensures id in jobs && r.Err? ==> unchanged(jobs[id]) && embeddingCalls == old(embeddingCalls)
      ensures id in jobs && r.Ok? ==>
                jobs[id].View() == old(jobs[id].View()).(status := OPEN)
                && embeddingCalls == old(embeddingCalls) + [StoreEmbedding(id)]
    {
      if id !in jobs {
        return Err(ResourceNotFound);
      }
      var job := jobs[id];
      if job.postedBy != userId {
        return Err(OperationNotPermitted);
      }
      if job.status == CLOSED {
        return Err(BusinessLogic);
      }
      if job.status == OPEN {
        return Err(BusinessLogic);
      }
      job.status := OPEN;
      embeddingCalls := embeddingCalls + [StoreEmbedding(job.id)];
      r := Ok(job.status);
    }

    /** updateJob. The setters run in the order of the source; when the skill
        check then fails the transaction rolls back, which the model shows by
        restoring the fields it had set. */
    method UpdateJob(id: JobId, userId: UserId, request: JobUpdateRequest, skillCatalog: set<SkillId>)
      returns (r: Result<()>)
      requires Valid()
      modifies (if id in jobs then {jobs[id]} else {}), this`embeddingCalls
      ensures Valid() && jobs == old(jobs) && exportTasks == old(exportTasks)
      ensures id !in jobs ==> r == Err(ResourceNotFound) && embeddingCalls == old(embeddingCalls)
      ensures id in jobs && old(jobs[id].postedBy) != userId ==> r == Err(OperationNotPermitted)
      ensures id in jobs && old(jobs[id].postedBy) == userId ==>
                (r.Ok? <==> request.skillIds.None? || ResolveSkills(skillCatalog, request.skillIds.value).Ok?)
      ensures id in jobs && r.Err? ==> jobs[id].View() == old(jobs[id].View()) && embeddingCalls == old(embeddingCalls)
      ensures id in jobs && r.Ok? ==>
                old(jobs[id].postedBy) == userId
                && jobs[id].View() == ApplyUpdate(old(jobs[id].View()), request,
                                                  if request.skillIds.Some? then Some(Elements(request.skillIds.value)) else None)
                && embeddingCalls == old(embeddingCalls) + [StoreEmbedding(id)]
    {
      if id !in jobs {
        return Err(ResourceNotFound);
      }
      var job := jobs[id];
      if job.postedBy != userId {
        return Err(OperationNotPermitted);
      }
      var before := job.View();
      SetRequestedFields(job, request);
      if request.skillIds.Some? {
        var resolved := ResolveSkills(skillCatalog, request.skillIds.value);
        if resolved.Err? {
          RollBack(job, before);
          return Err(resolved.error);
        }
        job.skills := resolved.value;
      }
      embeddingCalls := embeddingCalls + [StoreEmbedding(job.id)];
      r := Ok(());
    }

    /** startExportTask: check the job and its owner, order the recruiter's
        view of the applications as the code's comparator does (RatioOrder:
        unscored first, then best ratio first), register a PROCESSING task
        under the fresh id and start its worker (returned here, run by
        ProcessExport). */
    method StartExportTask(jobId: JobId, userId: UserId, applications: seq<RatedApplication>,
                           freshTaskId: TaskId, now: Time, nowAgain: Time)
      returns (r: Result<ExportTaskResponse>, task: ExportTask?, handedOver: seq<RatedApplication>)
      requires Valid()
      requires freshTaskId !in exportTasks
      modifies this`exportTasks, this`workers
      ensures Valid() && jobs == old(jobs) && embeddingCalls == old(embeddingCalls)
      ensures jobId !in jobs ==> r == Err(ResourceNotFound)
      ensures jobId in jobs && jobs[jobId].postedBy != userId ==> r == Err(OperationNotPermitted)
      ensures r.Err? ==> task == null && exportTasks == old(exportTasks) && workers == old(workers)
      ensures jobId in jobs && jobs[jobId].postedBy == userId ==>
                && r == Ok(ExportTaskResponse(freshTaskId, "PROCESSING", None))
                && task != null && fresh(task)
                && exportTasks == old(exportTasks)[freshTaskId := task]
                && workers == old(workers) + {task}
                && task.taskId == freshTaskId && task.jobId == jobId
                && task.status == PROCESSING && task.data == None && task.errorMessage == None
                && task.createdAt == now && task.expireAt == nowAgain + TTL_SECONDS
                && handedOver == RatioOrder(applications)
    {
      task := null;
      handedOver := [];
      if jobId !in jobs {
        return Err(ResourceNotFound), task, handedOver;
      }
      var job := jobs[jobId];
      if job.postedBy != userId {
        return Err(OperationNotPermitted), task, handedOver;
      }
      handedOver := RatioOrder(applications);
      task := new ExportTask(freshTaskId, jobId, now, nowAgain);
      exportTasks := exportTasks[freshTaskId := task];
      workers := workers + {task};
      r := Ok(ToExportTaskResponse(task));
    }

    /** processExport, run by the task's worker thread. */
    method ProcessExport(task: ExportTask, outcome: ExcelOutcome)
      requires Valid()
      requires task in workers
      modifies task, this`workers
      ensures Valid()
      ensures workers == old(workers) - {task}
      ensures jobs == old(jobs) && exportTasks == old(exportTasks) && embeddingCalls == old(embeddingCalls)
      ensures task.expireAt == old(task.expireAt)
      ensures outcome.Generated? ==>
                task.status == COMPLETED && task.data == Some(outcome.bytes) && task.errorMessage == old(task.errorMessage)
      ensures outcome.Threw? ==>
                task.status == FAILED && task.errorMessage == outcome.message && task.data == old(task.data)
    {
      match outcome {
        case Generated(bytes) =>
          task.SetData(Some(bytes));
          task.SetStatus(COMPLETED);
        case Threw(message) =>
          task.SetStatus(FAILED);
          task.SetErrorMessage(message);
      }
      workers := workers - {task};
    }

    /** getExportTask: the stored task, or ResourceNotFound. */
    method GetExportTask(taskId: TaskId) returns (r: Result<ExportTask>)
      ensures r.Ok? <==> taskId in exportTasks
      ensures r.Ok? ==> r.value == exportTasks[taskId]
      ensures r.Err? ==> r.error == ResourceNotFound
    {
      if taskId !in exportTasks {
        return Err(ResourceNotFound);
      }
      r := Ok(exportTasks[taskId]);
    }

    /** getExportTaskStatus: the job lookup, then the task lookup, then the
        permission rule, then a download URL exactly for a COMPLETED task.
        The rule is the code's (StatusQueryDenied): the job ids are compared
        as boxed references, so a non-owner is refused only for a task of the
        job named in the request, and only when that id is within -128..127. */
    method GetExportTaskStatus(jobId: JobId, taskId: TaskId, userId: UserId) returns (r: Result<ExportTaskResponse>)
      requires Valid()
      ensures jobId !in jobs ==> r == Err(ResourceNotFound)
      ensures jobId in jobs && taskId !in exportTasks ==> r == Err(ResourceNotFound)
      ensures r == Err(OperationNotPermitted) <==>
                jobId in jobs && taskId in exportTasks
                && StatusQueryDenied(jobs[jobId].postedBy == userId, exportTasks[taskId].jobId, jobId)
      ensures r.Ok? <==>
                jobId in jobs && taskId in exportTasks
                && !StatusQueryDenied(jobs[jobId].postedBy == userId, exportTasks[taskId].jobId, jobId)
      ensures r.Ok? ==>
                && taskId in exportTasks
                && r.value.taskId == taskId
                && StatusFromName(r.value.status) == Some(exportTasks[taskId].status)
                && (r.value.downloadUrl.Some? <==> exportTasks[taskId].status == COMPLETED)
                && (r.value.downloadUrl.Some? ==> r.value.downloadUrl.value == DownloadUrl(jobId, taskId))
    {
      if jobId !in jobs {
        return Err(ResourceNotFound);
      }
      var job := jobs[jobId];
      var found := GetExportTask(taskId);
      if found.Err? {
        return Err(found.error);
      }
      var task := found.value;
      if StatusQueryDenied(job.postedBy == userId, task.jobId, jobId) {
        return Err(OperationNotPermitted);
      }
      var downloadUrl: Option<string> := None;
      if task.status == COMPLETED {
        downloadUrl := Some(DownloadUrl(jobId, taskId));
      }
      r := Ok(ToExportTaskResponseWithUrl(task, downloadUrl));
    }

    /** getExportedFileData: ownership first, then the task, then its state.
        The task's own jobId is never consulted. */
    method GetExportedFileData(jobId: JobId, taskId: TaskId, userId: UserId) returns (r: Result<Bytes>)
      requires Valid()
      ensures jobId !in jobs ==> r == Err(ResourceNotFound)
      ensures jobId in jobs && jobs[jobId].postedBy != userId ==> r == Err(OperationNotPermitted)
      ensures jobId in jobs && jobs[jobId].postedBy == userId && taskId !in exportTasks ==> r == Err(ResourceNotFound)
      ensures (jobId in jobs && jobs[jobId].postedBy == userId && taskId in exportTasks
               && exportTasks[taskId].status != COMPLETED) ==> r == Err(BusinessLogic)
      ensures r.Ok? <==> jobId in jobs && jobs[jobId].postedBy == userId && taskId in exportTasks
                          && exportTasks[taskId].status == COMPLETED
      ensures r.Ok? ==> exportTasks[taskId].data == Some(r.value)
    {
      if jobId !in jobs {
        return Err(ResourceNotFound);
      }
      var job := jobs[jobId];
      if job.postedBy != userId {
        return Err(OperationNotPermitted);
      }
      var found := GetExportTask(taskId);
      if found.Err? {
        return Err(found.error);
      }
      var task := found.value;
      if task.status != COMPLETED {
        return Err(BusinessLogic);
      }
      r := Ok(task.data.value);
    }

    /** cleanExpiredTasks: removeIf over the registry's entries, dropping each
        whose expireAt is strictly before now, whatever its status. */
    method CleanExpiredTasks(now: Time)
      requires Valid()
      modifies this`exportTasks
      ensures Valid() && workers == old(workers)
      ensures exportTasks == map id | id in old(exportTasks) && old(exportTasks)[id].expireAt >= now :: old(exportTasks)[id]
    {
      var unvisited := exportTasks.Keys;
      while unvisited != {}
        invariant Valid()
        invariant unvisited <= old(exportTasks).Keys
        invariant exportTasks == map id | id in old(exportTasks) && (id in unvisited || old(exportTasks)[id].expireAt >= now)
                                       :: old(exportTasks)[id]
        decreases unvisited
      {
        var id :| id in unvisited;
        if exportTasks[id].expireAt < now {
          exportTasks := exportTasks - {id};
        }
        unvisited := unvisited - {id};
      }
    }
  }

  /** A task that completed but whose expiry has passed is gone: its status
      and its data both answer ResourceNotFound. */
  method ReapedTaskIsNotFound(service: JobService, jobId: JobId, taskId: TaskId, userId: UserId, now: Time)
    returns (status: Result<ExportTaskResponse>, data: Result<Bytes>)
    requires service.Valid()
    requires jobId in service.jobs && service.jobs[jobId].postedBy == userId
    requires taskId in service.exportTasks && service.exportTasks[taskId].expireAt < now
    modifies service
    ensures service.Valid()
    ensures status == Err(ResourceNotFound) && data == Err(ResourceNotFound)
  {
    service.CleanExpiredTasks(now);
    status := service.GetExportTaskStatus(jobId, taskId, userId);
    data := service.GetExportedFileData(jobId, taskId, userId);
  }

  /** The finding at the service: a caller who does not own a job whose id is
      128 or more is told the status of its export, with the download URL
      once it is COMPLETED. */
  method NonOwnerSeesLargeJobExport(service: JobService, jobId: JobId, taskId: TaskId, userId: UserId)
    returns (r: Result<ExportTaskResponse>)
    requires service.Valid()
    requires jobId in service.jobs && service.jobs[jobId].postedBy != userId && jobId >= 128
    requires taskId in service.exportTasks && service.exportTasks[taskId].jobId == jobId
    ensures r.Ok? && r.value.taskId == taskId
    ensures service.exportTasks[taskId].status == COMPLETED ==> r.value.downloadUrl == Some(DownloadUrl(jobId, taskId))
  {
    r := service.GetExportTaskStatus(jobId, taskId, userId);
  }

  /** A task polled right after it starts is PROCESSING; once its worker
      fails, the status is FAILED and the data is refused. */
  method FailedExportScenario(service: JobService, jobId: JobId, userId: UserId, taskId: TaskId, now: Time)
    returns (polled: Result<ExportTaskResponse>, after: Result<ExportTaskResponse>, data: Result<Bytes>)
    requires service.Valid()
    requires jobId in service.jobs && service.jobs[jobId].postedBy == userId
    requires taskId !in service.exportTasks
    modifies service
    ensures service.Valid()
    ensures polled.Ok? && StatusFromName(polled.value.status) == Some(PROCESSING) && polled.value.downloadUrl == None
    ensures after.Ok? && StatusFromName(after.value.status) == Some(FAILED) && after.value.downloadUrl == None
    ensures taskId in service.exportTasks && service.exportTasks[taskId].errorMessage == Some("disk full")
    ensures data == Err(BusinessLogic)
  {
    var started, task, rows := service.StartExportTask(jobId, userId, [], taskId, now, now);
    polled := service.GetExportTaskStatus(jobId, taskId, userId);
    service.ProcessExport(task, Threw(Some("disk full")));
    after := service.GetExportTaskStatus(jobId, taskId, userId);
    data := service.GetExportedFileData(jobId, taskId, userId);
  }
}
