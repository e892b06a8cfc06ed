/** The application side of the recruiting flow: the status transition table
    with its validation, and the service that creates applications (deferring
    its two events to the commit of the transaction) and moves them along the
    table. */
module Applications {
  import opened Common
  import opened Domain
  import opened Events

  // ---------------------------------------------------------------------
  // The transition table
  // ---------------------------------------------------------------------

  /** HIRED, REJECTED and WITHDRAWN end an application. */
  predicate IsTerminal(s: ApplicationStatus) {
    s == HIRED || s == REJECTED || s == WITHDRAWN
  }

  /** How far along the hiring pipeline a status is; every terminal status
      is past all live ones. */
  function Rank(s: ApplicationStatus): nat {
    match s
    case SUBMITTED => 0
    case UNDER_REVIEW => 1
    case SHORTLISTED => 2
    case INTERVIEW => 3
    case OFFERED => 4
    case HIRED => 5
    case REJECTED => 5
    case WITHDRAWN => 5
  }

  /** ALLOWED_TRANSITIONS: each live status moves one step forward or ends in
      REJECTED or WITHDRAWN; the terminal statuses have empty lists. */
  function AllowedTransitions(s: ApplicationStatus): (next: seq<ApplicationStatus>)
    ensures |next| == 0 <==> IsTerminal(s)
    ensures !IsTerminal(s) ==> REJECTED in next && WITHDRAWN in next
    ensures s !in next
    ensures HIRED in next <==> s == OFFERED
    ensures forall t :: t in next ==> Rank(t) > Rank(s)
  {
    match s
    case SUBMITTED => [UNDER_REVIEW, REJECTED, WITHDRAWN]
    case UNDER_REVIEW => [SHORTLISTED, REJECTED, WITHDRAWN]
    case SHORTLISTED => [INTERVIEW, REJECTED, WITHDRAWN]
    case INTERVIEW => [OFFERED, REJECTED, WITHDRAWN]
    case OFFERED => [HIRED, REJECTED, WITHDRAWN]
    case HIRED => []
    case REJECTED => []
    case WITHDRAWN => []
  }

  /** validateStatusTransition. A null current status is a business error; a
      null new status makes List.contains throw (the immutable lists of
      List.of refuse null even as an argument to contains); otherwise the
      move is accepted exactly when the table lists it. */
  function ValidateStatusTransition(current: Option<ApplicationStatus>, newStatus: Option<ApplicationStatus>)
    : (r: Result<()>)
    ensures current.None? ==> r == Err(BusinessLogic)
    ensures current.Some? && newStatus.None? ==> r == Err(NullPointer)
    ensures r.Ok? <==> current.Some? && newStatus.Some? && newStatus.value in AllowedTransitions(current.value)
    ensures r.Ok? ==> Rank(newStatus.value) > Rank(current.value) && !IsTerminal(current.value)
    ensures current.Some? && newStatus.Some? && r.Err? ==> r.error == BusinessLogic
  {
    if current.None? then Err(BusinessLogic)
    else if newStatus.None? then Err(NullPointer)
    else if newStatus.value in AllowedTransitions(current.value) then Ok(())
    else Err(BusinessLogic)
  }

  /** A history of statuses each of which validation lets follow the previous one. */
  predicate IsPath(p: seq<ApplicationStatus>) {
    forall i :: 0 <= i < |p| - 1 ==> ValidateStatusTransition(Some(p[i]), Some(p[i + 1])).Ok?
  }

  /** Along a valid history the rank grows by at least one per step. */
  lemma {:induction false} PathRankGrows(p: seq<ApplicationStatus>)
    requires |p| >= 1 && IsPath(p)
    ensures Rank(p[|p| - 1]) >= Rank(p[0]) + |p| - 1
    decreases |p|
  {
    if |p| > 1 {
      var q := p[..|p| - 1];
      assert IsPath(q) by {
        forall i | 0 <= i < |q| - 1
          ensures ValidateStatusTransition(Some(q[i]), Some(q[i + 1])).Ok?
        {
          assert q[i] == p[i] && q[i + 1] == p[i + 1];
        }
      }
      PathRankGrows(q);
      assert ValidateStatusTransition(Some(p[|p| - 2]), Some(p[|p| - 1])).Ok?;
    }
  }

  /** The table has no cycles: a valid history never returns to a status. */
  lemma NoCycles(p: seq<ApplicationStatus>, i: int, j: int)
    requires IsPath(p) && 0 <= i < j < |p|
    ensures p[i] != p[j]
  {
    var q := p[i..j + 1];
    assert IsPath(q) by {
      forall k | 0 <= k < |q| - 1
        ensures ValidateStatusTransition(Some(q[k]), Some(q[k + 1])).Ok?
      {
        assert q[k] == p[i + k] && q[k + 1] == p[i + k + 1];
      }
    }
    PathRankGrows(q);
  }

  /** No history has more than six statuses, so every application ends after
      at most five accepted updates. */
  lemma PathsAreShort(p: seq<ApplicationStatus>)
    requires IsPath(p)
    ensures |p| <= 6
  {
    if |p| > 0 {
      PathRankGrows(p);
    }
  }

  /** The forward chain of the table is a valid history that ends in HIRED,
      and a terminal status can be reached from every live one in one step. */
  lemma HiringChain()
    ensures IsPath([SUBMITTED, UNDER_REVIEW, SHORTLISTED, INTERVIEW, OFFERED, HIRED])
    ensures forall s :: !IsTerminal(s) ==> ValidateStatusTransition(Some(s), Some(WITHDRAWN)).Ok?
  {
  }

  // ---------------------------------------------------------------------
  // Creating applications and their deferred events
  // ---------------------------------------------------------------------

  datatype ApplicationRequest = ApplicationRequest(jobId: JobId, resumeId: ResumeId)

  /** The afterCommit hook createJobApplication registers: what it captured
      when it was registered. */
  datatype SubmissionHook = SubmissionHook(applicationId: ApplicationId, userId: UserId, jobId: JobId, jobTitle: string)

  /** The record the hook sends to the match-calc topic. */
  function MatchRecord(h: SubmissionHook): Record<ApplicationMatchEvent> {
    Record(IntToString(h.applicationId), ApplicationMatchEvent(h.applicationId, h.userId, h.jobId))
  }

  /** The match event carries the hook's three ids, under a key that reads
      back as the application id. */
  lemma MatchRecordContents(h: SubmissionHook)
    ensures ParseInt(MatchRecord(h).key) == MatchRecord(h).value.applicationId == h.applicationId
    ensures MatchRecord(h).value.userId == h.userId && MatchRecord(h).value.jobId == h.jobId
  {
    IntToStringRoundTrip(h.applicationId);
  }

  /** The payload of the submission notification (Map.of with three entries). */
  function SubmissionPayload(jobTitle: string): Payload {
    map["jobTitle" := Text(jobTitle), "company" := Text("TODO"), "status" := Text("SUBMITTED")]
  }

  /** The payload carries exactly the job title, the placeholder company and
      the name of the SUBMITTED status. */
  lemma SubmissionPayloadContents(jobTitle: string)
    ensures SubmissionPayload(jobTitle).Keys == {"jobTitle", "company", "status"}
    ensures SubmissionPayload(jobTitle)["jobTitle"] == Text(jobTitle)
    ensures SubmissionPayload(jobTitle)["company"] == Text("TODO")
    ensures SubmissionPayload(jobTitle)["status"] == Text(ApplicationStatusName(SUBMITTED))
  {
  }

  /** The record the hook sends to the notification-events topic; eventId is
      the random UUID drawn when the hook runs. */
  function NotificationRecord(h: SubmissionHook, eventId: string): Record<NotificationEvent> {
    Record(IntToString(h.applicationId),
           NotificationEvent(Some(eventId), Some("JOB_APPLICATION_SUBMITTED"), h.userId, [EMAIL],
                             Some(SubmissionPayload(h.jobTitle))))
  }

  /** The notification is keyed like the match event, carries the hook's
      event id, is of the submission type, goes to the applicant by e-mail only, and carries the payload
      above. */
  lemma NotificationRecordContents(h: SubmissionHook, eventId: string)
    ensures ParseInt(NotificationRecord(h, eventId).key) == h.applicationId
    ensures NotificationRecord(h, eventId).key == MatchRecord(h).key
    ensures NotificationRecord(h, eventId).value.eventId == Some(eventId)
    ensures NotificationRecord(h, eventId).value.eventType == Some("JOB_APPLICATION_SUBMITTED")
    ensures NotificationRecord(h, eventId).value.userId == h.userId
    ensures NotificationRecord(h, eventId).value.channels == [EMAIL]
    ensures NotificationRecord(h, eventId).value.payload == Some(SubmissionPayload(h.jobTitle))
  {
    IntToStringRoundTrip(h.applicationId);
  }

  /** The match-calc records of a run of hooks, in order. */
  function MatchRecords(hooks: seq<SubmissionHook>): seq<Record<ApplicationMatchEvent>> {
    if hooks == [] then [] else MatchRecords(hooks[..|hooks| - 1]) + [MatchRecord(hooks[|hooks| - 1])]
  }

  /** The notification records of a run of hooks, each with its own event id. */
  function NotificationRecords(hooks: seq<SubmissionHook>, eventIds: seq<string>): seq<Record<NotificationEvent>>
    requires |eventIds| == |hooks|
  {
    if hooks == [] then []
    else NotificationRecords(hooks[..|hooks| - 1], eventIds[..|hooks| - 1])
         + [NotificationRecord(hooks[|hooks| - 1], eventIds[|hooks| - 1])]
  }

  /** The i-th hook sends the i-th record of the match topic: one match event
      per hook, in hook order. */
  lemma {:induction false} MatchRecordsFollowHooks(hooks: seq<SubmissionHook>)
    ensures |MatchRecords(hooks)| == |hooks|
    ensures forall i :: 0 <= i < |hooks| ==> MatchRecords(hooks)[i] == MatchRecord(hooks[i])
    decreases |hooks|
  {
    if hooks != [] {
      var n := |hooks| - 1;
      var front := hooks[..n];
      MatchRecordsFollowHooks(front);
      assert MatchRecords(hooks) == MatchRecords(front) + [MatchRecord(hooks[n])];
      forall i | 0 <= i < n
        ensures MatchRecords(hooks)[i] == MatchRecord(hooks[i])
      {
        assert front[i] == hooks[i];
      }
    }
  }

  /** The i-th hook sends the i-th record of the notification topic, with the
      i-th event id. */
  lemma {:induction false} NotificationRecordsFollowHooks(hooks: seq<SubmissionHook>, eventIds: seq<string>)
    requires |eventIds| == |hooks|
    ensures |NotificationRecords(hooks, eventIds)| == |hooks|
    ensures forall i :: 0 <= i < |hooks| ==> NotificationRecords(hooks, eventIds)[i] == NotificationRecord(hooks[i], eventIds[i])
    decreases |hooks|
  {
    if hooks != [] {
      var n := |hooks| - 1;
      var front, ids := hooks[..n], eventIds[..n];
      NotificationRecordsFollowHooks(front, ids);
      assert NotificationRecords(hooks, eventIds) == NotificationRecords(front, ids) + [NotificationRecord(hooks[n], eventIds[n])];
      forall i | 0 <= i < n
        ensures NotificationRecords(hooks, eventIds)[i] == NotificationRecord(hooks[i], eventIds[i])
      {
        assert front[i] == hooks[i] && ids[i] == eventIds[i];
      }
    }
  }

  /** Running one more hook appends its two records. */
  lemma RecordsGrowByOne(hooks: seq<SubmissionHook>, eventIds: seq<string>, i: nat)
    requires |eventIds| == |hooks| && i < |hooks|
    ensures MatchRecords(hooks[..i + 1]) == MatchRecords(hooks[..i]) + [MatchRecord(hooks[i])]
    ensures NotificationRecords(hooks[..i + 1], eventIds[..i + 1])
            == NotificationRecords(hooks[..i], eventIds[..i]) + [NotificationRecord(hooks[i], eventIds[i])]
  {
    assert hooks[..i + 1][..i] == hooks[..i];
    assert eventIds[..i + 1][..i] == eventIds[..i];
  }

  /** The application service over its repository and its two topics. */
  class ApplicationService {
    var applications: map<ApplicationId, Application>
    /** The synchronizations registered in the open transaction. */
    var pendingHooks: seq<SubmissionHook>
    var matchTopic: seq<Record<ApplicationMatchEvent>>
    var notificationTopic: seq<Record<NotificationEvent>>

    ghost predicate Valid()
      reads this, applications.Values
    {
      forall id :: id in applications ==> applications[id].id == id
    }

    constructor (applications: map<ApplicationId, Application>)
      requires forall id :: id in applications ==> applications[id].id == id
      ensures Valid()
      ensures this.applications == applications && pendingHooks == [] && matchTopic == [] && notificationTopic == []
    {
      this.applications := applications;
      pendingHooks, matchTopic, notificationTopic := [], [], [];
    }

    /** existsApplicationByApplicantAndJob */
    predicate HasApplied(userId: UserId, jobId: JobId)
      reads this, applications.Values
    {
      exists id :: id in applications && applications[id].applicant == userId && applications[id].job == jobId
    }

    /** createJobApplication. The guards run in the order user, job, earlier
        application, resume; the first that fails decides the error and
        nothing is saved or registered. On success the new application is
        saved as SUBMITTED under the id the database hands out, and one hook
        is registered; nothing is sent before the commit. */
    method CreateJobApplication(currentUser: Option<User>, jobs: map<JobId, Job>, request: ApplicationRequest,
                                resumes: set<ResumeId>, newId: ApplicationId)
      returns (r: Result<Application>)
      requires Valid()
      requires forall k :: k in jobs ==> jobs[k].id == k
      requires newId !in applications
      modifies this`applications, this`pendingHooks
      ensures Valid()
      ensures matchTopic == old(matchTopic) && notificationTopic == old(notificationTopic)
      ensures currentUser.None? ==> r == Err(ResourceNotFound)
      ensures currentUser.Some? && request.jobId !in jobs ==> r == Err(ResourceNotFound)
      ensures currentUser.Some? && request.jobId in jobs && old(HasApplied(currentUser.value.id, request.jobId)) ==>
                r == Err(OperationNotPermitted)
      ensures currentUser.Some? && request.jobId in jobs && !old(HasApplied(currentUser.value.id, request.jobId))
                && request.resumeId !in resumes ==>
                r == Err(ResourceNotFound)
      ensures r.Err? ==> applications == old(applications) && pendingHooks == old(pendingHooks)
      ensures r.Ok? <==>
                currentUser.Some? && request.jobId in jobs && !old(HasApplied(currentUser.value.id, request.jobId))
                && request.resumeId in resumes
      ensures r.Ok? ==>
                && fresh(r.value)
                && applications == old(applications)[newId := r.value]
                && r.value.id == newId && r.value.status == Some(SUBMITTED) && r.value.matchingRatio == None
                && r.value.applicant == currentUser.value.id && r.value.job == request.jobId
                && r.value.resume == request.resumeId
                && pendingHooks == old(pendingHooks)
                                   + [SubmissionHook(newId, currentUser.value.id, request.jobId, jobs[request.jobId].title)]
    {
      if currentUser.None? {
        return Err(ResourceNotFound);
      }
      var user := currentUser.value;
      if request.jobId !in jobs {
        return Err(ResourceNotFound);
      }
      var job := jobs[request.jobId];
      if HasApplied(user.id, job.id) {
        return Err(OperationNotPermitted);
      }
      if request.resumeId !in resumes {
        return Err(ResourceNotFound);
      }
      var application := new Application(newId);
      application.applicant := user.id;
      application.job := job.id;
      application.resume := request.resumeId;
      application.status := Some(SUBMITTED);
      applications := applications[newId := application];
      pendingHooks := pendingHooks + [SubmissionHook(newId, user.id, job.id, job.title)];
      r := Ok(application);
    }

    /** The commit: every registered hook runs afterCommit, which sends its
        match event and then its notification event, each keyed by the
        application id. */
    method Commit(eventIds: seq<string>)
      requires |eventIds| == |pendingHooks|
      modifies this`pendingHooks, this`matchTopic, this`notificationTopic
      ensures pendingHooks == []
      ensures matchTopic == old(matchTopic) + MatchRecords(old(pendingHooks))
      ensures notificationTopic == old(notificationTopic) + NotificationRecords(old(pendingHooks), eventIds)
    {
      var hooks := pendingHooks;
      var i := 0;
      while i < |hooks|
        invariant 0 <= i <= |hooks|
        invariant matchTopic == old(matchTopic) + MatchRecords(hooks[..i])
        invariant notificationTopic == old(notificationTopic) + NotificationRecords(hooks[..i], eventIds[..i])
      {
        RecordsGrowByOne(hooks, eventIds, i);
        AppendRegroup(old(matchTopic), MatchRecords(hooks[..i]), MatchRecord(hooks[i]));
        AppendRegroup(old(notificationTopic), NotificationRecords(hooks[..i], eventIds[..i]),
                      NotificationRecord(hooks[i], eventIds[i]));
        RunHook(hooks[i], eventIds[i]);
        i := i + 1;
      }
      assert hooks[..i] == hooks && eventIds[..i] == eventIds;
      pendingHooks := [];
    }

    /** One hook's afterCommit: the match event, then the notification. */
    method RunHook(h: SubmissionHook, eventId: string)
      modifies this`matchTopic, this`notificationTopic
      ensures matchTopic == old(matchTopic) + [MatchRecord(h)]
      ensures notificationTopic == old(notificationTopic) + [NotificationRecord(h, eventId)]
    {
      matchTopic := matchTopic + [MatchRecord(h)];
      notificationTopic := notificationTopic + [NotificationRecord(h, eventId)];
    }

    /** updateApplicationStatus: the stored status moves to newStatus exactly
        when validation accepts the move; otherwise nothing changes. */
    method UpdateApplicationStatus(applicationId: ApplicationId, newStatus: Option<ApplicationStatus>)
      returns (r: Result<ApplicationStatus>)
      requires Valid()
      modifies if applicationId in applications then {applications[applicationId]} else {}
      ensures Valid()
      ensures applicationId !in applications ==> r == Err(ResourceNotFound)
      ensures applicationId in applications ==>
                && (r.Ok? <==> ValidateStatusTransition(old(applications[applicationId].status), newStatus).Ok?)
                && (r.Err? ==> r.error == ValidateStatusTransition(old(applications[applicationId].status), newStatus).error
                               && unchanged(applications[applicationId]))
      ensures r.Ok? ==>
                && applicationId in applications
                && applications[applicationId].status == newStatus == Some(r.value)
                && Rank(r.value) > Rank(old(applications[applicationId].status).value)
                && applications[applicationId].matchingRatio == old(applications[applicationId].matchingRatio)
                && applications[applicationId].applicant == old(applications[applicationId].applicant)
                && applications[applicationId].job == old(applications[applicationId].job)
                && applications[applicationId].resume == old(applications[applicationId].resume)
    {
      if applicationId !in applications {
        return Err(ResourceNotFound);
      }
      var application := applications[applicationId];
      var valid := ValidateStatusTransition(application.status, newStatus);
      if valid.Err? {
        return Err(valid.error);
      }
      application.status := newStatus;
      r := Ok(newStatus.value);
    }
  }
}
