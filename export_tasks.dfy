/** An export task (the record a background Excel export reports through) and
    the mapper that turns it into the response the API returns. */
module ExportTasks {
  import opened Common
  import opened Domain

  type TaskId = string

  /** A reading of Instant.now(), in seconds. */
  type Time = int

  type Bytes = seq<bv8>

  /** How long a task stays in the registry after it is created. */
  const TTL_SECONDS: int := 600

  datatype Status = PROCESSING | COMPLETED | FAILED

  /** Status.name() */
  function StatusName(s: Status): (name: string)
    ensures StatusFromName(name) == Some(s)
  {
    match s
    case PROCESSING => "PROCESSING"
    case COMPLETED => "COMPLETED"
    case FAILED => "FAILED"
  }

  /** Status.valueOf, with None for a name no constant carries. */
  function StatusFromName(name: string): Option<Status> {
    if name == "PROCESSING" then Some(PROCESSING)
    else if name == "COMPLETED" then Some(COMPLETED)
    else if name == "FAILED" then Some(FAILED)
    else None
  }

  /** One background export. taskId, jobId and createdAt are final; status,
      data and errorMessage are written after construction through setters. */
  class ExportTask {
    const taskId: TaskId
    const jobId: JobId
    const createdAt: Time
    var expireAt: Time
    var status: Status
    var data: Option<Bytes>
    var errorMessage: Option<string>

    /** The constructor reads the clock twice: `now` for createdAt and
        `nowAgain` for the expiry. */
    constructor (taskId: TaskId, jobId: JobId, now: Time, nowAgain: Time)
      ensures this.taskId == taskId && this.jobId == jobId && createdAt == now
      ensures status == PROCESSING && data == None && errorMessage == None
      ensures expireAt == nowAgain + TTL_SECONDS
      ensures now <= nowAgain ==> expireAt >= createdAt + TTL_SECONDS
      ensures Settled()
    {
      this.taskId := taskId;
      this.jobId := jobId;
      status := PROCESSING;
      createdAt := now;
      expireAt := nowAgain + TTL_SECONDS;
      data := None;
      errorMessage := None;
    }

    /** The setters accept any value: nothing in the class itself orders the
        status changes. */
    method SetStatus(s: Status)
      modifies this`status
      ensures status == s
    {
      status := s;
    }

    method SetData(d: Option<Bytes>)
      modifies this`data
      ensures data == d
    {
      data := d;
    }

    method SetErrorMessage(m: Option<string>)
      modifies this`errorMessage
      ensures errorMessage == m
    {
      errorMessage := m;
    }

    /** The states a task can be in between the export worker's steps: a
        PROCESSING task has neither result, a COMPLETED one has its data and
        no message, a FAILED one has no data (its message may be null, as an
        exception's message may be). */
    ghost predicate Settled()
      reads this
    {
      && (status == PROCESSING ==> data == None && errorMessage == None)
      && (status == COMPLETED ==> data.Some? && errorMessage == None)
      && (status == FAILED ==> data == None)
    }
  }

  /** The response body of the export endpoints. */
  datatype ExportTaskResponse = ExportTaskResponse(taskId: string, status: string, downloadUrl: Option<string>)

  /** toExportTaskResponse(task): no download URL. */
  function ToExportTaskResponse(task: ExportTask): (r: ExportTaskResponse)
    reads task
    ensures r.taskId == task.taskId
    ensures StatusFromName(r.status) == Some(task.status)
    ensures r.downloadUrl == None
  {
    ExportTaskResponse(task.taskId, StatusName(task.status), None)
  }

  /** toExportTaskResponse(task, downloadUrl): the URL is passed through. */
  function ToExportTaskResponseWithUrl(task: ExportTask, downloadUrl: Option<string>): (r: ExportTaskResponse)
    reads task
    ensures r.taskId == task.taskId
    ensures StatusFromName(r.status) == Some(task.status)
    ensures r.downloadUrl == downloadUrl
  {
    ExportTaskResponse(task.taskId, StatusName(task.status), downloadUrl)
  }

  /** The two overloads agree except for the URL. */
  lemma MapperOverloadsAgree(task: ExportTask)
    ensures ToExportTaskResponseWithUrl(task, None) == ToExportTaskResponse(task)
  {
  }
}
