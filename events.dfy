/** The messages that travel over the three Kafka topics (match-calc,
    notification-events, notification-dispatch). They carry no behaviour. */
module Events {
  import opened Common
  import opened Domain

  datatype Channel = EMAIL | PUSH

  datatype EmailTemplate =
    | Activation
    | ResetPassword
    | JOB_APPLICATION_UPDATED
    | JOB_APPLICATION_SUBMITTED
    | NEW_MATCHED_JOBS

  /** A value of the loosely typed payload bag (a Java Object): a string, a
      number, or any other object together with what its toString returns. */
  datatype Value = Text(s: string) | Number(n: int) | Other(rendered: string)

  type Payload = map<string, Value>

  /** DispatchPayload: one flat record whose fields are all nullable; the
      EMAIL fields and the PUSH fields are filled according to the channel. */
  datatype DispatchPayload = DispatchPayload(
    channel: Option<Channel>,
    to: Option<string>,
    subject: Option<string>,
    template: Option<EmailTemplate>,
    templateVariables: Option<map<string, Value>>,
    title: Option<string>,
    body: Option<string>,
    redirectTo: Option<string>,
    eventType: Option<string>)

  /** NotificationEvent. The builder's default for channels is the empty list;
      a payload or an event type that was never set is null. */
  datatype NotificationEvent = NotificationEvent(
    eventId: Option<string>,
    eventType: Option<string>,
    userId: UserId,
    channels: seq<Channel>,
    payload: Option<Payload>)

  /** A record sent to a topic: the message key and the value. */
  datatype Record<T> = Record(key: string, value: T)

  datatype ApplicationMatchEvent = ApplicationMatchEvent(applicationId: ApplicationId, userId: UserId, jobId: JobId)
}
