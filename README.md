# upply-backend core, modelled in Dafny

This project models the core of the upply recruiting backend (Java, Spring) and proves properties about it. It covers:

- **Job service** (`jobs.dfy`).
  - The job lifecycle: `closeJob`, `pauseJob`, `resumeJob`, and `updateJob` with its skill check, which `createJob` shares.
  - The matching-ratio ordering of a job's applications.
  - The in-memory registry of background Excel exports: `startExportTask`, the worker `processExport`, `getExportTask`, `getExportTaskStatus`, `getExportedFileData` and the reaper `cleanExpiredTasks`.
  - Job, application and export task are classes, because the service updates their fields through setters. The registry is a `map` field of the service.
  - A ghost set of started-but-unfinished workers carries the invariant that a task leaves PROCESSING at most once.
- **Export task and its mapper** (`export_tasks.dfy`): the task's initial state, the three setters the service calls, and both `toExportTaskResponse` overloads.
- **Application service** (`applications.dfy`).
  - The status transition table and `validateStatusTransition`. Lemmas prove: terminal states, no self-loops, no cycles, and paths of at most six statuses.
  - `updateApplicationStatus`.
  - `createJobApplication`. It checks its guards in this order: user, job, earlier application, resume. It saves the SUBMITTED record and registers its afterCommit hook.
  - A `Commit` step runs the hook. The hook sends the match event and then the submission notification, each keyed by the application id.
- **Notification orchestrator** (`orchestrator.dfy`).
  - `resolveTemplate` is a total function. Its result is "no template", "threw", or a payload.
  - `handle` is a loop over the event's channels. It appends to the dispatch outbox and is proved against the recursive specification `FanoutOf`.
- **Dispatch consumer** (`dispatch.dfy`): which sender a payload reaches.
- **Match consumer** (`match_consumer.dfy`): three lookups, then the score write-back, with every failure swallowed.
- **Pipeline** (`pipeline.dfy`): end-to-end lemmas across the modules.
  - What the submission notification becomes after the orchestrator and the dispatcher.
  - Every published record reaches the sender of its channel.

`common.dfy`, `domain.dfy` and `events.dfy` hold the shared values:

- Java `null` as `Option`, and exceptions as a `Result` error.
- `String.valueOf(long)` with its parse-back.
- The entities and the Kafka DTOs.

External effects are parameters or logs:

- **Clock:** readings of `Instant.now()` are integer parameters.
- **Fresh ids:** UUIDs and database ids are parameters with a freshness precondition.
- **Kafka sends:** appended to sequence fields.
- **Vector-store calls:** appended to `embeddingCalls`.
- **Matching score:** a function parameter (`None` means it threw).
- **Excel generation:** an `ExcelOutcome` parameter.

In two places the source does something other than what it evidently means. Both are listed under "## Findings". The model follows the code there too; the corrected behaviour is defined and proved beside it.

## Model

| member | source | states |
|---|---|---|
| ExportTasks.ExportTask.constructor | src/main/java/com/upply/job/ExportTask.java:24-30 | a new task keeps its id and job id, is PROCESSING with no data and no message, expires 600 s after the second clock reading (so at least 600 s after createdAt when the clock does not go back), and is in a settled state |
| ExportTasks.ExportTask.SetStatus | src/main/java/com/upply/job/ExportTask.java:18 | the setter writes any status and touches no other field |
| ExportTasks.ExportTask.SetData | src/main/java/com/upply/job/ExportTask.java:19 | the setter writes the data and touches no other field |
| ExportTasks.ExportTask.SetErrorMessage | src/main/java/com/upply/job/ExportTask.java:20 | the setter writes the message and touches no other field |
| ExportTasks.StatusName | src/main/java/com/upply/job/ExportTask.java:12-14 | the name of each status parses back to that status, so the three names are distinct |
| ExportTasks.ToExportTaskResponse | src/main/java/com/upply/job/dto/ExportTaskMapper.java:9-14 | task id copied, status is the name of the task's status, no download URL |
| ExportTasks.ToExportTaskResponseWithUrl | src/main/java/com/upply/job/dto/ExportTaskMapper.java:16-21 | task id copied, status is the name of the task's status, URL passed through unchanged |
| ExportTasks.MapperOverloadsAgree | src/main/java/com/upply/job/dto/ExportTaskMapper.java:9-21 | the two overloads differ only in the URL |
| Jobs.ResolveSkills | src/main/java/com/upply/job/JobService.java:150-156 | an accepted request yields exactly the set of requested ids, all in the catalogue; a refusal is ResourceNotFound |
| Jobs.SkillsAcceptedIff | src/main/java/com/upply/job/JobService.java:53-58 | the skill check passes iff every id exists and no id is repeated (a repeated existing id is refused, as the size comparison counts distinct skills against list length) |
| Jobs.ElementsCardinality | src/main/java/com/upply/job/JobService.java:56 | a list has at most as many distinct elements as entries, with equality iff no entry repeats |
| Jobs.LifecycleStepsChangeStatus | src/main/java/com/upply/job/JobService.java:178-242 | every accepted close, pause or resume changes the status, repeating it is refused, and every refusal is a BusinessLogic error |
| Jobs.LifecycleShape | src/main/java/com/upply/job/JobService.java:178-242 | CLOSED is final, only closing reaches it, and pause and resume undo each other |
| Jobs.Lifecycle | src/main/java/com/upply/job/JobService.java:178-242 | the status rule of close, pause and resume once ownership is checked: the new status or a BusinessLogic refusal; its properties are LifecycleStepsChangeStatus and LifecycleShape |
| Jobs.ApplyUpdateLaws | src/main/java/com/upply/job/JobService.java:126-148 | an update naming nothing changes nothing; applying an update twice equals applying it once |
| Jobs.ApplyUpdate | src/main/java/com/upply/job/JobService.java:126-156 | the partial update never touches the owner or the status |
| Jobs.SetRequestedFields | src/main/java/com/upply/job/JobService.java:126-148 | after the setter calls the job's fields equal the partial update of the old fields |
| Jobs.RollBack | src/main/java/com/upply/job/JobService.java:114-154 | the transaction's rollback restores every field of the job |
| Jobs.InsertKeepsSorted | src/main/java/com/upply/job/JobService.java:308-311 | inserting into a sorted list keeps it sorted |
| Jobs.SortRated | src/main/java/com/upply/job/JobService.java:305-312 | the sort returns a permutation of its input, sorted by descending ratio with null ratios at the chosen end |
| Jobs.RatioOrder | src/main/java/com/upply/job/JobService.java:305-312 | the order the code gives, nulls placed first by the reversed comparator; its properties are RatioOrderPutsUnscoredFirst and RatioOrderCounterexample |
| Jobs.RatioOrderPutsUnscoredFirst | src/main/java/com/upply/job/JobService.java:305-312 | the order the code gives: a permutation, scored applications in descending ratio, and every unscored application before every scored one |
| Jobs.RatioOrderCounterexample | src/main/java/com/upply/job/JobService.java:308-311 | [ratio 0.9, null] is ordered as [null, 0.9] |
| Jobs.IntendedRatioOrderPutsUnscoredLast | src/main/java/com/upply/job/JobService.java:308-311 | the corrected order: a permutation, scored applications in descending ratio, unscored ones last |
| Jobs.StatusQueryDeniedAsWritten | src/main/java/com/upply/job/JobService.java:348 | as written, a non-owner is never refused a task of another job, is refused a task of the named job only when that job id is within -128..127 (so jobs 200 and up leak), and the code refuses no more than the corrected rule |
| Jobs.StatusQueryDenied | src/main/java/com/upply/job/JobService.java:348 | the denial rule as written, with the job ids compared as boxed references; its properties are StatusQueryDeniedAsWritten |
| Jobs.IntendedStatusQueryDeniesNonOwners | src/main/java/com/upply/job/JobService.java:348-350 | with ids compared by value, every non-owner asking for a task of the named job is refused and no owner is |
| Jobs.DownloadUrlInjective | src/main/java/com/upply/job/JobService.java:353-356 | the download URL determines the job id and the task id |
| Jobs.DownloadUrl | src/main/java/com/upply/job/JobService.java:353-356 | the download path of a job and a task; DownloadUrlInjective shows it names exactly one of each |
| Jobs.SplitRenderedLong | src/main/java/com/upply/job/JobService.java:355 | a rendered long followed by '/' splits only one way |
| Jobs.JobService.constructor | src/main/java/com/upply/job/JobService.java:48 | the registry starts empty with no workers, and the service invariant holds |
| Jobs.JobService.TerminalTasksHaveNoWorker | src/main/java/com/upply/job/JobService.java:324-333 | a task that has left PROCESSING has no worker left to write it, so PROCESSING to a final status happens at most once |
| Jobs.JobService.CloseJob | src/main/java/com/upply/job/JobService.java:167-190 | missing job is ResourceNotFound, non-owner is OperationNotPermitted; otherwise the result is the close rule on the old status; a refusal changes nothing; success changes only the status, to CLOSED, and deletes the job's embedding |
| Jobs.JobService.PauseJob | src/main/java/com/upply/job/JobService.java:193-220 | same guards; CLOSED or PAUSED refused unchanged; success changes only the status, to PAUSED, and stores the embedding |
| Jobs.JobService.ResumeJob | src/main/java/com/upply/job/JobService.java:223-250 | same guards; CLOSED or OPEN refused unchanged; success changes only the status, to OPEN, and stores the embedding |
| Jobs.JobService.UpdateJob | src/main/java/com/upply/job/JobService.java:115-164 | missing job and non-owner refused; an owner's update succeeds iff it names no skills or the skill check passes; any refusal leaves the job as it was; success applies the partial update with the resolved skills and stores the embedding |
| Jobs.JobService.StartExportTask | src/main/java/com/upply/job/JobService.java:296-322 | missing job is ResourceNotFound, non-owner is OperationNotPermitted, both leave the registry unchanged; success adds exactly one fresh PROCESSING task under the new id for that job, registers its worker, answers PROCESSING without URL, and hands the worker the applications in the code's ratio order (RatioOrder: unscored first, then descending ratio) |
| Jobs.JobService.ProcessExport | src/main/java/com/upply/job/JobService.java:324-333 | the worker ends: COMPLETED with the generated bytes and the message untouched, or FAILED with the exception's message and the data untouched; the registry and the service invariant are kept and the worker is retired |
| Jobs.JobService.GetExportTask | src/main/java/com/upply/job/JobService.java:335-341 | ResourceNotFound iff the id is absent, otherwise the stored task; nothing changes |
| Jobs.JobService.GetExportTaskStatus | src/main/java/com/upply/job/JobService.java:343-359 | job lookup, then task lookup, then the code's permission rule (StatusQueryDenied: a non-owner is refused only for a task of the named job, and only when its id is within -128..127); success iff job and task exist and the caller is not refused; a download URL iff the task is COMPLETED, equal to the download path of the job and task |
| Jobs.JobService.GetExportedFileData | src/main/java/com/upply/job/JobService.java:367-382 | ownership is checked before the task lookup; a task not COMPLETED is a BusinessLogic error; success iff owner, task present and COMPLETED, returning exactly the stored data; the task's own job id is never consulted |
| Jobs.JobService.CleanExpiredTasks | src/main/java/com/upply/job/JobService.java:384-389 | the registry afterwards is exactly the old entries whose expiry is not before now, whatever their status; the invariant is kept |
| Jobs.ReapedTaskIsNotFound | src/main/java/com/upply/job/JobService.java:384-389 | after the reaper removed a task both the status and the data queries answer ResourceNotFound |
| Jobs.FailedExportScenario | src/main/java/com/upply/job/JobService.java:296-382 | a task polled right after it starts is PROCESSING without URL; once its worker fails it is FAILED with the exception's message and still without URL, and its data is refused with a BusinessLogic error |
| Jobs.NonOwnerSeesLargeJobExport | src/main/java/com/upply/job/JobService.java:343-359 | a caller who does not own a job with id 128 or more is answered with the status of that job's export task, and with its download URL once COMPLETED |
| Applications.AllowedTransitions | src/main/java/com/upply/application/ApplicationService.java:169-198 | the list is empty iff the status is terminal; every live status allows REJECTED and WITHDRAWN; no status allows itself; only OFFERED allows HIRED; every allowed move raises the rank |
| Applications.ValidateStatusTransition | src/main/java/com/upply/application/ApplicationService.java:200-210 | null current status is BusinessLogic; null new status throws NullPointer from List.contains; accepted iff both present and the table lists the move; an accepted move leaves a live status for a higher rank |
| Applications.PathRankGrows | src/main/java/com/upply/application/ApplicationService.java:169-198 | along any history of accepted moves the rank grows by at least one per move |
| Applications.NoCycles | src/main/java/com/upply/application/ApplicationService.java:169-198 | no history of accepted moves returns to a status it has visited |
| Applications.PathsAreShort | src/main/java/com/upply/application/ApplicationService.java:169-198 | a history of accepted moves has at most six statuses |
| Applications.HiringChain | src/main/java/com/upply/application/ApplicationService.java:170-193 | SUBMITTED, UNDER_REVIEW, SHORTLISTED, INTERVIEW, OFFERED, HIRED is a valid history, and WITHDRAWN is reachable from every live status |
| Applications.MatchRecordContents | src/main/java/com/upply/application/ApplicationService.java:80-90 | the match event carries the application, user and job ids, and its key parses back to the application id |
| Applications.SubmissionPayloadContents | src/main/java/com/upply/application/ApplicationService.java:104-108 | the notification payload holds exactly jobTitle, company "TODO" and status "SUBMITTED" |
| Applications.NotificationRecordContents | src/main/java/com/upply/application/ApplicationService.java:97-109 | the notification is keyed like the match event, has type JOB_APPLICATION_SUBMITTED, goes to the applicant on the EMAIL channel only, carries the hook's event id, and carries that payload |
| Applications.MatchRecordsFollowHooks | src/main/java/com/upply/application/ApplicationService.java:86-95 | a run of hooks sends one match record per hook, the i-th being the i-th hook's |
| Applications.NotificationRecordsFollowHooks | src/main/java/com/upply/application/ApplicationService.java:96-114 | a run of hooks sends one notification record per hook, the i-th being the i-th hook's with the i-th event id |
| Applications.RecordsGrowByOne | src/main/java/com/upply/application/ApplicationService.java:86-116 | running one more hook appends exactly its two records |
| Applications.ApplicationService.CreateJobApplication | src/main/java/com/upply/application/ApplicationService.java:54-120 | guards in order user, job, earlier application (OperationNotPermitted), resume (a missing resume after the first three pass gives ResourceNotFound); any refusal saves and registers nothing; success iff all four pass; the new application is SUBMITTED with no ratio and the given applicant, job and resume; exactly one hook is registered; nothing is sent before commit |
| Applications.ApplicationService.Commit | src/main/java/com/upply/application/ApplicationService.java:86-116 | after commit the match topic and the notification topic have gained exactly the records of the registered hooks, in order, and no hook is left |
| Applications.ApplicationService.RunHook | src/main/java/com/upply/application/ApplicationService.java:88-115 | one hook's afterCommit appends its match record to the match topic and its notification record to the notification topic, and nothing else |
| Applications.ApplicationService.UpdateApplicationStatus | src/main/java/com/upply/application/ApplicationService.java:150-161 | missing application is ResourceNotFound; the status changes iff validation accepts, to the new status and a higher rank, with the other fields unchanged; a refusal returns validation's error and changes nothing |
| Orchestrator.MapOfSucceedsIff | src/main/java/com/upply/notification/NotificationOrchestrator.java:64-70 | Map.of succeeds iff no value is null |
| Orchestrator.MapOfContents | src/main/java/com/upply/notification/NotificationOrchestrator.java:64-70 | a successful Map.of has exactly the given keys, each mapped to its given value |
| Orchestrator.EmailResolvesIff | src/main/java/com/upply/notification/NotificationOrchestrator.java:109-114 | the e-mail branch yields a payload iff the user has a first name and the event payload has every key the template reads |
| Orchestrator.ResolveTemplate | src/main/java/com/upply/notification/NotificationOrchestrator.java:51-129 | null type throws; unknown type gives no template; known type with a null payload map throws; a payload carries the channel asked for; EMAIL goes to the user's address with the same-named template; PUSH goes to the device token with the event type and always resolves; EMAIL resolves iff first name and keys are present, else throws NullPointer; per event type, the e-mail subject and the push title, body and link are the source's texts with each payload value rendered as string concatenation renders it |
| Orchestrator.FanoutOf | src/main/java/com/upply/notification/NotificationOrchestrator.java:33-48 | what the channel loop publishes and the exception that stops it, channel by channel; Handle is proved against it and its properties are the Fanout lemmas below |
| Orchestrator.FanoutOfShape | src/main/java/com/upply/notification/NotificationOrchestrator.java:33-48 | at most one record per channel entry, every record keyed by the user id and carrying a channel, a published PUSH only for a user with a device token and addressed to it, a published EMAIL addressed to the user |
| Orchestrator.FanoutPublishesLast | src/main/java/com/upply/notification/NotificationOrchestrator.java:33-48 | a channel that resolves and is not a PUSH to a user without token adds exactly its record, keyed by the user id, after the earlier ones |
| Orchestrator.FanoutStopsAtFailure | src/main/java/com/upply/notification/NotificationOrchestrator.java:33-48 | after an exception the remaining channels change nothing |
| Orchestrator.FanoutAppend | src/main/java/com/upply/notification/NotificationOrchestrator.java:33-48 | channels are handled independently and in list order: the records for a + b are those for a then those for b, unless a threw |
| Orchestrator.UnknownTypePublishesNothing | src/main/java/com/upply/notification/NotificationOrchestrator.java:124-127 | an event type without a case publishes nothing and throws nothing, whatever the channels |
| Orchestrator.PushSkippedIffNoToken | src/main/java/com/upply/notification/NotificationOrchestrator.java:41-44 | for a known type with a payload map, PUSH never throws and is skipped iff the device token is null; EMAIL publishes nothing iff it throws |
| Orchestrator.EveryChannelPublished | src/main/java/com/upply/notification/NotificationOrchestrator.java:33-48 | when nothing can throw or be skipped, every entry (duplicates included) yields one record for its channel, in list order |
| Orchestrator.PublishedBeforeFailure | src/main/java/com/upply/notification/NotificationOrchestrator.java:33-48 | PUSH then EMAIL for a user without first name publishes the PUSH record and then throws NullPointer |
| Orchestrator.SubmittedToEmailAndPush | src/main/java/com/upply/notification/NotificationOrchestrator.java:103-123 | a submission event on EMAIL and PUSH to a user with a first name and a device token publishes two records keyed by the user id: the e-mail to the address with subject "Your application to <company> has been submitted!", then the push to the token titled "Application Submitted ✅" with the submission text and link "/my-applications" |
| Orchestrator.MissingKeyRendersNull | src/main/java/com/upply/notification/NotificationOrchestrator.java:103-123 | for a submission event whose payload lacks the company, the push text reads "at null" while the e-mail throws NullPointer from Map.of |
| Orchestrator.NotificationOrchestrator.Handle | src/main/java/com/upply/notification/NotificationOrchestrator.java:28-49 | missing user is ResourceNotFound with nothing sent; otherwise the outbox gains exactly the fan-out's records and the call fails iff, and with the error with which, the fan-out stopped |
| Dispatch.Handle | src/main/java/com/upply/notification/DispatchConsumer.java:21-42 | a sender is called iff the channel is non-null; EMAIL calls the e-mail sender with the payload's four e-mail fields; PUSH calls the push sender with the whole payload; the handler has no error result |
| MatchConsumer.HandleMatchCalc | src/main/java/com/upply/application/ApplicationMatchConsumer.java:30-51 | lookups in order application, user, job, each failure swallowed and reported; the score is saved iff all three exist and the scorer returns; only the application's ratio changes, to the score of the user and job found |
| Pipeline.PublishedRecordsReachTheirSender | src/main/java/com/upply/notification/DispatchConsumer.java:23-37 | every record the orchestrator publishes reaches the sender of its channel: e-mail to the user's address, push to the user's (non-null) device token |
| Pipeline.UpdatedEmailVariables | src/main/java/com/upply/notification/NotificationOrchestrator.java:59-70 | with a first name and the three payload keys, the update e-mail resolves, and its variables are exactly firstName, the payload's jobTitle, company and status, and applicationUrl "https://upply.com/my-applications" |
| Pipeline.MatchedEmailVariables | src/main/java/com/upply/notification/NotificationOrchestrator.java:81-92 | with a first name and the two payload keys, the matched-jobs e-mail resolves, and its variables are exactly firstName, the payload's matchedCount and matchedJobs, and jobsUrl "https://upply.com/jobs/matched" |
| Pipeline.SubmissionVariables | src/main/java/com/upply/notification/NotificationOrchestrator.java:109-114 | the submission e-mail's variables are the first name, the job title, company "TODO" and status "SUBMITTED" |
| Pipeline.SubmissionSubjectText | src/main/java/com/upply/notification/NotificationOrchestrator.java:107 | the submission e-mail's subject is "Your application to TODO has been submitted!" |
| Pipeline.SingleEmailChannel | src/main/java/com/upply/notification/NotificationOrchestrator.java:33-48 | a one-entry EMAIL list publishes what EMAIL resolves to, or fails with its exception |
| Pipeline.SubmissionNotificationIsOneEmail | src/main/java/com/upply/notification/NotificationOrchestrator.java:103-115 | a submitted application's notification becomes exactly one e-mail keyed by the applicant's id, sent with the submission template, subject and variables whatever the device token; without a first name it throws and sends nothing |
| Common.IntToString | src/main/java/com/upply/job/JobService.java:355 | the decimal rendering of a long is non-empty, starts with '-' iff the value is negative, and is digits otherwise |
| Common.IntToStringRoundTrip | src/main/java/com/upply/application/ApplicationService.java:90 | the decimal rendering of a long parses back to it |
| Common.IntToStringInjective | src/main/java/com/upply/notification/NotificationOrchestrator.java:46 | distinct ids render as distinct message keys |

## Left out

- Concurrency. The virtual-thread worker, the `ConcurrentHashMap`, the `volatile` fields, the `@Scheduled` timer and Kafka delivery are modelled sequentially. The worker is `ProcessExport`, called after `StartExportTask`, and interleavings are not modelled.
- CleanExpiredTasks: `removeIf` reads the clock once per entry. The model uses one reading for the whole sweep.
- Repositories, paging (`PageResponse`), `JobMapper`, `ApplicationMapper` and logging are not modelled. Repositories become maps passed in or held as fields. `save` has no separate effect.
- The vector store is logged as calls, not modelled. `createJob` is modelled through its skill check (`ResolveSkills`) only; its mapping and save are left out.
- `ApplicationExcelExportService.generateExcel`, the mail sender and the Firebase push sender are foreign calls. The first becomes an `ExcelOutcome` parameter; the senders become the `SenderCall` that `Dispatch.Handle` returns.
- The matching service's score is a Java `double`. It is modelled as a `real` given by a function parameter, with no floating-point semantics.
- Enum conversions of `updateJob` (`JobType.fromApiValue` and its siblings) are not modelled. Job type, seniority and work model are kept as the strings received, so a conversion failure is not modelled.
- Null fields of a notification event are partly not modelled. The user id, the channel list and its entries are non-null in the model. In the source a null user id makes `findById` throw IllegalArgumentException out of `handle`, and a null channel list throws NullPointerException at the loop.
- Null request ids are not modelled. The job, task and application ids passed to the service methods are non-null values; Spring binds them from the request path.
- SortRated: stability (applications with equal ratios keep their input order) is not stated; only the permutation and the order are.
- The channel list of the submission notification is read as `[EMAIL]`. Line 103 of ApplicationService.java has a stray `needed` token after `List.of(DispatchPayload.Channel.EMAIL)`, so the file does not compile as written.
- `ExportTask.setExpireAt`: Lombok's `@Setter` generates it, but nothing calls it. The expiry is set only by the constructor, so the model has no such setter.
- A null job title is not modelled. Titles are strings, so the `Map.of` failure it would cause in the afterCommit hook is not modelled.
- The asynchronous failure callbacks of the Kafka sends (`exceptionally`) only log. The model treats every send as appended.
- Dispatch.Handle: exceptions thrown by the senders themselves are outside the model. The handler's containment is represented by its having no error result.
- The request-scoped authentication is represented by the caller's user id (or an optional current user in `createJobApplication`).

## Findings

| source | as written | input that shows it | evidently intended | confidence | as-written member | corrected member |
|---|---|---|---|---|---|---|
| src/main/java/com/upply/job/JobService.java:308-311 | `comparing(getMatchingRatio, nullsLast(Double::compareTo)).reversed()` reverses the null placement as well, so applications without a ratio come first; the listing sort of `getJobApplications` at lines 258-264 uses the same comparator and orders the same way | applications with ratios [0.9, null] are exported as [null, 0.9] | highest ratio first, unscored applications last | high; not executed | Jobs.RatioOrderCounterexample | Jobs.IntendedRatioOrderPutsUnscoredLast |
| src/main/java/com/upply/job/JobService.java:348 | `task.getJobId() == jobId` compares two boxed `Long` references, which are the same object only for cached values -128..127 | a non-owner asks for the status of a task of job 200: the comparison is false, so the request is not refused and the download URL is returned | compare the ids by value (`Objects.equals`), as the ownership checks beside it do | high; not executed | Jobs.StatusQueryDeniedAsWritten | Jobs.IntendedStatusQueryDeniesNonOwners |

The service follows the code: `StartExportTask` hands over `RatioOrder`, and `GetExportTaskStatus` applies `StatusQueryDenied`. The corrected definitions, `IntendedRatioOrder` and `IntendedStatusQueryDenied`, are proved beside them. `StatusQueryDeniedAsWritten` also shows that the code refuses no request the corrected rule would let through.
