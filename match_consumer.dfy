/** The match consumer: for each match event it looks up the application, the
    user and the job, asks the matching service for a score and writes it onto
    the application. Every failure is logged and swallowed. */
module MatchConsumer {
  import opened Common
  import opened Domain
  import opened Events

  /** Why an event was dropped, in the order the lookups run. */
  datatype Failure = ApplicationMissing | UserMissing | JobMissing | ScorerFailed

  /** What the consumer logs: the saved score, or the failure it swallowed. */
  datatype Outcome = Saved(score: real) | Swallowed(failure: Failure)

  /** handleMatchCalc. The scorer is the matching service, a call into code
      outside this model: it sees the user and the job only, and None stands
      for an exception it throws. */
  method HandleMatchCalc(event: ApplicationMatchEvent, applications: map<ApplicationId, Application>,
                         users: map<UserId, User>, jobs: map<JobId, Job>,
                         calculateMatchScore: (User, JobView) -> Option<real>)
    returns (outcome: Outcome)
    modifies if event.applicationId in applications then {applications[event.applicationId]} else {}
    ensures event.applicationId !in applications ==> outcome == Swallowed(ApplicationMissing)
    ensures event.applicationId in applications && event.userId !in users ==> outcome == Swallowed(UserMissing)
    ensures event.applicationId in applications && event.userId in users && event.jobId !in jobs ==>
              outcome == Swallowed(JobMissing)
    ensures outcome.Saved? <==>
              && event.applicationId in applications && event.userId in users && event.jobId in jobs
              && old(calculateMatchScore(users[event.userId], jobs[event.jobId].View())).Some?
    ensures outcome.Swallowed? && event.applicationId in applications ==> unchanged(applications[event.applicationId])
    ensures outcome.Saved? ==>
              && outcome.score == old(calculateMatchScore(users[event.userId], jobs[event.jobId].View())).value
              && applications[event.applicationId].matchingRatio == Some(outcome.score)
              && applications[event.applicationId].status == old(applications[event.applicationId].status)
              && applications[event.applicationId].applicant == old(applications[event.applicationId].applicant)
              && applications[event.applicationId].job == old(applications[event.applicationId].job)
              && applications[event.applicationId].resume == old(applications[event.applicationId].resume)
  {
    if event.applicationId !in applications {
      return Swallowed(ApplicationMissing);
    }
    var application := applications[event.applicationId];
    if event.userId !in users {
      return Swallowed(UserMissing);
    }
    var user := users[event.userId];
    if event.jobId !in jobs {
      return Swallowed(JobMissing);
    }
    var job := jobs[event.jobId];
    var score := calculateMatchScore(user, job.View());
    if score.None? {
      return Swallowed(ScorerFailed);
    }
    application.matchingRatio := Some(score.value);
    outcome := Saved(score.value);
  }
}
