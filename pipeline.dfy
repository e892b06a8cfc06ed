/** How the parts fit together: what the submission notification of
    createJobApplication becomes once the orchestrator and the dispatch
    consumer have handled it, and what any published record asks of the
    senders. */
module Pipeline {
  import opened Common
  import opened Domain
  import opened Events
  import opened Applications
  import opened Orchestrator
  import Dispatch

  /** Every record the orchestrator publishes reaches exactly the sender of its
      channel: e-mail to the user's address, push to the user's device token,
      which is never null for a published push. */
  lemma PublishedRecordsReachTheirSender(event: NotificationEvent, user: User, channels: seq<Channel>, i: nat)
    requires i < |FanoutOf(event, user, channels).published|
    ensures Dispatch.Handle(FanoutOf(event, user, channels).published[i].value).Some?
    ensures Dispatch.Handle(FanoutOf(event, user, channels).published[i].value).value.SendEmail? ==>
              Dispatch.Handle(FanoutOf(event, user, channels).published[i].value).value.to == Some(user.email)
    ensures Dispatch.Handle(FanoutOf(event, user, channels).published[i].value).value.SendPush? ==>
              user.deviceToken.Some?
              && Dispatch.Handle(FanoutOf(event, user, channels).published[i].value).value.payload.to == user.deviceToken
  {
    FanoutOfShape(event, user, channels);
    assert FanoutOf(event, user, channels).published[i] in FanoutOf(event, user, channels).published;
  }

  /** The subject of the submission e-mail while the company is the "TODO"
      placeholder. */
  const SUBMISSION_SUBJECT: string := "Your application to " + "TODO" + " has been submitted!"

  /** Map.of with one more entry in front, under a key the rest lacks. */
  lemma MapOfStep(k: string, v: Value, rest: seq<(string, Option<Value>)>)
    requires forall i, j :: 0 <= i < j < |rest| ==> rest[i].0 != rest[j].0
    requires forall i :: 0 <= i < |rest| ==> rest[i].0 != k
    ensures MapOf([(k, Some(v))] + rest) == if MapOf(rest).Some? then Some(MapOf(rest).value[k := v]) else None
  {
    assert ([(k, Some(v))] + rest)[1..] == rest;
  }

  /** Map.of with four distinct keys and no null value. */
  lemma MapOfFour(k0: string, v0: Value, k1: string, v1: Value, k2: string, v2: Value, k3: string, v3: Value)
    requires k0 != k1 && k0 != k2 && k0 != k3 && k1 != k2 && k1 != k3 && k2 != k3
    ensures MapOf([(k0, Some(v0)), (k1, Some(v1)), (k2, Some(v2)), (k3, Some(v3))])
            == Some(map[k0 := v0, k1 := v1, k2 := v2, k3 := v3])
  {
    var e3: seq<(string, Option<Value>)> := [(k3, Some(v3))];
    MapOfStep(k3, v3, []);
    assert [(k3, Some(v3))] + [] == e3;
    var e2 := [(k2, Some(v2))] + e3;
    MapOfStep(k2, v2, e3);
    var e1 := [(k1, Some(v1))] + e2;
    MapOfStep(k1, v1, e2);
    var e0 := [(k0, Some(v0))] + e1;
    MapOfStep(k0, v0, e1);
    assert e0 == [(k0, Some(v0)), (k1, Some(v1)), (k2, Some(v2)), (k3, Some(v3))];
    UpdatesCommute(k0, v0, k1, v1, k2, v2, k3, v3);
  }

  /** Updates under distinct keys may be applied in either order. */
  lemma UpdatesCommute(k0: string, v0: Value, k1: string, v1: Value, k2: string, v2: Value, k3: string, v3: Value)
    requires k0 != k1 && k0 != k2 && k0 != k3 && k1 != k2 && k1 != k3 && k2 != k3
    ensures map[k3 := v3][k2 := v2][k1 := v1][k0 := v0] == map[k0 := v0, k1 := v1, k2 := v2, k3 := v3]
  {
  }

  /** Map.of with five distinct keys and no null value. */
  lemma MapOfFive(k0: string, v0: Value, k1: string, v1: Value, k2: string, v2: Value, k3: string, v3: Value,
                  k4: string, v4: Value)
    requires k0 != k1 && k0 != k2 && k0 != k3 && k0 != k4
    requires k1 != k2 && k1 != k3 && k1 != k4 && k2 != k3 && k2 != k4 && k3 != k4
    ensures MapOf([(k0, Some(v0)), (k1, Some(v1)), (k2, Some(v2)), (k3, Some(v3)), (k4, Some(v4))])
            == Some(map[k0 := v0, k1 := v1, k2 := v2, k3 := v3, k4 := v4])
  {
    var rest: seq<(string, Option<Value>)> := [(k1, Some(v1)), (k2, Some(v2)), (k3, Some(v3)), (k4, Some(v4))];
    MapOfFour(k1, v1, k2, v2, k3, v3, k4, v4);
    MapOfStep(k0, v0, rest);
    assert [(k0, Some(v0))] + rest == [(k0, Some(v0)), (k1, Some(v1)), (k2, Some(v2)), (k3, Some(v3)), (k4, Some(v4))];
    FrontUpdateCommutes(k0, v0, k1, v1, k2, v2, k3, v3, k4, v4);
  }

  /** An update under a fresh key may be moved to the front of a map display. */
  lemma FrontUpdateCommutes(k0: string, v0: Value, k1: string, v1: Value, k2: string, v2: Value, k3: string, v3: Value,
                            k4: string, v4: Value)
    requires k0 != k1 && k0 != k2 && k0 != k3 && k0 != k4
    ensures map[k1 := v1, k2 := v2, k3 := v3, k4 := v4][k0 := v0] == map[k0 := v0, k1 := v1, k2 := v2, k3 := v3, k4 := v4]
  {
  }

  /** The variables of an application-update e-mail: the first name, the
      payload's job title, company and status, and the applications link. */
  lemma UpdatedEmailVariables(event: NotificationEvent, user: User)
    requires event.eventType == Some(APPLICATION_UPDATED) && event.payload.Some?
    requires "jobTitle" in event.payload.value && "company" in event.payload.value && "status" in event.payload.value
    requires user.firstName.Some?
    ensures ResolveTemplate(event, EMAIL, user).Resolved?
    ensures ResolveTemplate(event, EMAIL, user).payload.templateVariables
            == Some(map["firstName" := Text(user.firstName.value), "jobTitle" := event.payload.value["jobTitle"],
                        "company" := event.payload.value["company"], "status" := event.payload.value["status"],
                        "applicationUrl" := Text("https://upply.com/my-applications")])
  {
    var p := event.payload.value;
    EventTypesDistinct();
    assert EmailEntries(APPLICATION_UPDATED, p, user)
           == [("firstName", Some(Text(user.firstName.value))), ("jobTitle", Some(p["jobTitle"])),
               ("company", Some(p["company"])), ("status", Some(p["status"])),
               ("applicationUrl", Some(Text("https://upply.com/my-applications")))];
    MapOfFive("firstName", Text(user.firstName.value), "jobTitle", p["jobTitle"], "company", p["company"],
              "status", p["status"], "applicationUrl", Text("https://upply.com/my-applications"));
  }

  /** The variables of a matched-jobs e-mail: the first name, the payload's
      count and jobs, and the matched-jobs link. */
  lemma MatchedEmailVariables(event: NotificationEvent, user: User)
    requires event.eventType == Some(MATCHED_JOBS) && event.payload.Some?
    requires "matchedCount" in event.payload.value && "matchedJobs" in event.payload.value
    requires user.firstName.Some?
    ensures ResolveTemplate(event, EMAIL, user).Resolved?
    ensures ResolveTemplate(event, EMAIL, user).payload.templateVariables
            == Some(map["firstName" := Text(user.firstName.value), "matchedCount" := event.payload.value["matchedCount"],
                        "matchedJobs" := event.payload.value["matchedJobs"],
                        "jobsUrl" := Text("https://upply.com/jobs/matched")])
  {
    var p := event.payload.value;
    EventTypesDistinct();
    assert EmailEntries(MATCHED_JOBS, p, user)
           == [("firstName", Some(Text(user.firstName.value))), ("matchedCount", Some(p["matchedCount"])),
               ("matchedJobs", Some(p["matchedJobs"])), ("jobsUrl", Some(Text("https://upply.com/jobs/matched")))];
    MapOfFour("firstName", Text(user.firstName.value), "matchedCount", p["matchedCount"], "matchedJobs", p["matchedJobs"],
              "jobsUrl", Text("https://upply.com/jobs/matched"));
  }

  /** The variables of the submission e-mail: the applicant's first name and
      the three entries of the notification's payload. */
  lemma SubmissionVariables(jobTitle: string, user: User)
    requires user.firstName.Some?
    ensures MapOf(EmailEntries(APPLICATION_SUBMITTED, SubmissionPayload(jobTitle), user))
            == Some(map["firstName" := Text(user.firstName.value), "jobTitle" := Text(jobTitle),
                        "company" := Text("TODO"), "status" := Text("SUBMITTED")])
  {
    SubmissionPayloadContents(jobTitle);
    EventTypesDistinct();
    assert EmailEntries(APPLICATION_SUBMITTED, SubmissionPayload(jobTitle), user)
           == [("firstName", Some(Text(user.firstName.value))), ("jobTitle", Some(Text(jobTitle))),
               ("company", Some(Text("TODO"))), ("status", Some(Text("SUBMITTED")))];
    MapOfFour("firstName", Text(user.firstName.value), "jobTitle", Text(jobTitle),
              "company", Text("TODO"), "status", Text("SUBMITTED"));
  }

  /** The submission e-mail's subject names the payload's company. */
  lemma SubmissionSubjectText(jobTitle: string)
    ensures EmailSubject(APPLICATION_SUBMITTED, SubmissionPayload(jobTitle)) == SUBMISSION_SUBJECT
  {
    SubmissionPayloadContents(jobTitle);
    EventTypesDistinct();
    assert Render(Get(SubmissionPayload(jobTitle), "company")) == "TODO";
  }

  /** A one-channel list publishes what that channel resolves to, unless it is
      skipped or throws. */
  lemma SingleEmailChannel(event: NotificationEvent, user: User)
    ensures ResolveTemplate(event, EMAIL, user).Resolved? ==>
              FanoutOf(event, user, [EMAIL])
              == Fanout([Record(IntToString(event.userId), ResolveTemplate(event, EMAIL, user).payload)], None)
    ensures ResolveTemplate(event, EMAIL, user).Threw? ==>
              FanoutOf(event, user, [EMAIL]) == Fanout([], Some(ResolveTemplate(event, EMAIL, user).error))
  {
    assert [EMAIL][..0] == [];
  }

  /** A submitted application's notification, handled for its applicant, is
      one e-mail with the submission template, whatever the applicant's
      device token; it needs the applicant's first name, and without one the
      orchestrator throws and sends nothing. */
  lemma SubmissionNotificationIsOneEmail(h: SubmissionHook, eventId: string, user: User)
    requires user.id == h.userId
    ensures user.firstName.None? ==>
              FanoutOf(NotificationRecord(h, eventId).value, user, [EMAIL]) == Fanout([], Some(NullPointer))
    ensures user.firstName.Some? ==>
              && FanoutOf(NotificationRecord(h, eventId).value, user, [EMAIL]).failure == None
              && |FanoutOf(NotificationRecord(h, eventId).value, user, [EMAIL]).published| == 1
              && ParseInt(FanoutOf(NotificationRecord(h, eventId).value, user, [EMAIL]).published[0].key) == user.id
              && Dispatch.Handle(FanoutOf(NotificationRecord(h, eventId).value, user, [EMAIL]).published[0].value)
                 == Some(Dispatch.SendEmail(
                      Some(user.email), Some(SUBMISSION_SUBJECT), Some(JOB_APPLICATION_SUBMITTED),
                      Some(map["firstName" := Text(user.firstName.value), "jobTitle" := Text(h.jobTitle),
                               "company" := Text("TODO"), "status" := Text("SUBMITTED")])))
  {
    var event := NotificationRecord(h, eventId).value;
    NotificationRecordContents(h, eventId);
    SubmissionPayloadContents(h.jobTitle);
    EmailResolvesIff(APPLICATION_SUBMITTED, event.payload.value, user);
    SingleEmailChannel(event, user);
    IntToStringRoundTrip(user.id);
    if user.firstName.Some? {
      SubmissionVariables(h.jobTitle, user);
      SubmissionSubjectText(h.jobTitle);
      assert EmailTemplateFor(APPLICATION_SUBMITTED) == JOB_APPLICATION_SUBMITTED;
    }
  }
}
