/** The persistent entities the core reads and updates: users, jobs and
    applications. Jobs and applications are JPA entities whose setters the
    services call, so they are classes; a user is only read, so it is a value. */
module Domain {
  import opened Common

  type UserId = int
  type JobId = int
  type ApplicationId = int
  type ResumeId = int
  type SkillId = int

  /** The fields of a user the core reads. The e-mail address is never null;
      the first name and the device token may be. */
  datatype User = User(id: UserId, email: string, firstName: Option<string>, deviceToken: Option<string>)

  datatype JobStatus = OPEN | PAUSED | CLOSED

  datatype ApplicationStatus =
    | SUBMITTED
    | UNDER_REVIEW
    | SHORTLISTED
    | INTERVIEW
    | OFFERED
    | HIRED
    | REJECTED
    | WITHDRAWN

  /** ApplicationStatus.name() */
  function ApplicationStatusName(s: ApplicationStatus): string {
    match s
    case SUBMITTED => "SUBMITTED"
    case UNDER_REVIEW => "UNDER_REVIEW"
    case SHORTLISTED => "SHORTLISTED"
    case INTERVIEW => "INTERVIEW"
    case OFFERED => "OFFERED"
    case HIRED => "HIRED"
    case REJECTED => "REJECTED"
    case WITHDRAWN => "WITHDRAWN"
  }

  /** The values of a job's updatable fields at one moment. */
  datatype JobView = JobView(
    postedBy: UserId,
    status: JobStatus,
    title: string,
    jobType: string,
    seniority: string,
    workModel: string,
    location: string,
    description: string,
    skills: set<SkillId>)

  /** A job posting. jobType, seniority and workModel hold the API value the
      enum conversion received. */
  class Job {
    const id: JobId
    var postedBy: UserId
    var status: JobStatus
    var title: string
    var jobType: string
    var seniority: string
    var workModel: string
    var location: string
    var description: string
    var skills: set<SkillId>

    constructor (id: JobId, postedBy: UserId, status: JobStatus, title: string)
      ensures this.id == id
      ensures View() == JobView(postedBy, status, title, "", "", "", "", "", {})
    {
      this.id := id;
      this.postedBy := postedBy;
      this.status := status;
      this.title := title;
      jobType, seniority, workModel, location, description := "", "", "", "", "";
      skills := {};
    }

    function View(): JobView
      reads this
    {
      JobView(postedBy, status, title, jobType, seniority, workModel, location, description, skills)
    }
  }

  /** A job application. status and matchingRatio are nullable columns. */
  class Application {
    const id: ApplicationId
    var applicant: UserId
    var job: JobId
    var resume: ResumeId
    var status: Option<ApplicationStatus>
    var matchingRatio: Option<real>

    constructor (id: ApplicationId)
      ensures this.id == id && status == None && matchingRatio == None
    {
      this.id := id;
      applicant, job, resume := 0, 0, 0;
      status := None;
      matchingRatio := None;
    }
  }
}
