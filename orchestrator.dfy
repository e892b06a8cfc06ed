/** The notification orchestrator: for each channel a notification event names
    it resolves a dispatch payload from the event type, the channel and the
    user, skips what it cannot or must not send, and publishes the rest to the
    dispatch topic keyed by the user id. */
module Orchestrator {
  import opened Common
  import opened Domain
  import opened Events

  const APPLICATION_UPDATED: string := "JOB_APPLICATION_UPDATED"
  const MATCHED_JOBS: string := "NEW_MATCHED_JOBS"
  const APPLICATION_SUBMITTED: string := "JOB_APPLICATION_SUBMITTED"

  /** The event types resolveTemplate has a case for. */
  predicate IsKnownType(t: string) {
    t == APPLICATION_UPDATED || t == MATCHED_JOBS || t == APPLICATION_SUBMITTED
  }

  /** The three case labels differ (each in one character), so every known
      type selects exactly one case. */
  lemma EventTypesDistinct()
    ensures APPLICATION_SUBMITTED != APPLICATION_UPDATED
    ensures APPLICATION_SUBMITTED != MATCHED_JOBS && APPLICATION_UPDATED != MATCHED_JOBS
  {
    assert APPLICATION_SUBMITTED[16] != APPLICATION_UPDATED[16];
    assert APPLICATION_SUBMITTED[0] != MATCHED_JOBS[0] && APPLICATION_UPDATED[0] != MATCHED_JOBS[0];
  }

  /** EmailTemplate.name(): the enum constant's own name. */
  function TemplateName(t: EmailTemplate): string {
    match t
    case Activation => "Activation"
    case ResetPassword => "ResetPassword"
    case JOB_APPLICATION_UPDATED => APPLICATION_UPDATED
    case JOB_APPLICATION_SUBMITTED => APPLICATION_SUBMITTED
    case NEW_MATCHED_JOBS => MATCHED_JOBS
  }

  /** What resolveTemplate gives back: null, a payload, or an exception. */
  datatype Resolution = NoTemplate | Threw(error: Error) | Resolved(payload: DispatchPayload)

  /** Map.get: null for a missing key. */
  function Get(p: Payload, k: string): Option<Value> {
    if k in p then Some(p[k]) else None
  }

  /** String concatenation's rendering of an Object: null becomes "null". */
  function Render(v: Option<Value>): string {
    match v
    case None => "null"
    case Some(Text(s)) => s
    case Some(Number(n)) => IntToString(n)
    case Some(Other(r)) => r
  }

  /** Map.of(k1, v1, ...): throws on a null value; otherwise the map of the
      given entries. Every call site passes distinct literal keys. */
  function MapOf(entries: seq<(string, Option<Value>)>): Option<map<string, Value>>
    requires forall i, j :: 0 <= i < j < |entries| ==> entries[i].0 != entries[j].0
  {
    if entries == [] then Some(map[])
    else
      var rest := MapOf(entries[1..]);
      if entries[0].1.None? || rest.None? then None
      else Some(rest.value[entries[0].0 := entries[0].1.value])
  }

  /** Map.of succeeds exactly when no value is null. */
  lemma {:induction false} MapOfSucceedsIff(entries: seq<(string, Option<Value>)>)
    requires forall i, j :: 0 <= i < j < |entries| ==> entries[i].0 != entries[j].0
    ensures MapOf(entries).Some? <==> forall i :: 0 <= i < |entries| ==> entries[i].1.Some?
  {
    if entries != [] {
      var tail := entries[1..];
      MapOfSucceedsIff(tail);
      assert forall i :: 1 <= i < |entries| ==> entries[i] == tail[i - 1];
    }
  }

  /** A successful Map.of holds exactly the given entries. */
  lemma {:induction false} MapOfContents(entries: seq<(string, Option<Value>)>)
    requires forall i, j :: 0 <= i < j < |entries| ==> entries[i].0 != entries[j].0
    requires MapOf(entries).Some?
    ensures MapOf(entries).value.Keys == set i | 0 <= i < |entries| :: entries[i].0
    ensures forall i :: 0 <= i < |entries| ==> entries[i].1 == Some(MapOf(entries).value[entries[i].0])
  {
    if entries != [] {
      var tail := entries[1..];
      MapOfContents(tail);
      assert forall i :: 1 <= i < |entries| ==> entries[i] == tail[i - 1];
      var keys := set i | 0 <= i < |entries| :: entries[i].0;
      var tailKeys := set i | 0 <= i < |tail| :: tail[i].0;
      forall x | x in keys
        ensures x in tailKeys + {entries[0].0}
      {
        var i :| 0 <= i < |entries| && entries[i].0 == x;
        if i > 0 { assert tail[i - 1].0 == x; }
      }
      assert keys == tailKeys + {entries[0].0};
    }
  }

  /** The payload keys each e-mail template reads. */
  function RequiredKeys(t: string): set<string> {
    if t == APPLICATION_UPDATED then {"jobTitle", "company", "status"}
    else if t == MATCHED_JOBS then {"matchedCount", "matchedJobs"}
    else {"jobTitle", "company", "status"}
  }

  /** The fixed link each e-mail template adds to its variables, if any. */
  function LinkVariable(t: string): seq<(string, Option<Value>)> {
    if t == APPLICATION_UPDATED then [("applicationUrl", Some(Text("https://upply.com/my-applications")))]
    else if t == MATCHED_JOBS then [("jobsUrl", Some(Text("https://upply.com/jobs/matched")))]
    else []
  }

  function FirstNameValue(user: User): Option<Value> {
    if user.firstName.Some? then Some(Text(user.firstName.value)) else None
  }

  /** The arguments of the template's Map.of call, in the source's order. */
  function EmailEntries(t: string, p: Payload, user: User): seq<(string, Option<Value>)> {
    if t == MATCHED_JOBS then
      [("firstName", FirstNameValue(user)), ("matchedCount", Get(p, "matchedCount")),
       ("matchedJobs", Get(p, "matchedJobs"))] + LinkVariable(t)
    else
      [("firstName", FirstNameValue(user)), ("jobTitle", Get(p, "jobTitle")),
       ("company", Get(p, "company")), ("status", Get(p, "status"))] + LinkVariable(t)
  }

  function EmailSubject(t: string, p: Payload): string {
    if t == APPLICATION_UPDATED then "Update on your application at " + Render(Get(p, "company"))
    else if t == MATCHED_JOBS then "We found " + Render(Get(p, "matchedCount")) + " new jobs for you!"
    else "Your application to " + Render(Get(p, "company")) + " has been submitted!"
  }

  function EmailTemplateFor(t: string): EmailTemplate {
    if t == APPLICATION_UPDATED then JOB_APPLICATION_UPDATED
    else if t == MATCHED_JOBS then NEW_MATCHED_JOBS
    else JOB_APPLICATION_SUBMITTED
  }

  /** The EMAIL branch of a known event type. */
  function EmailPayload(t: string, p: Payload, user: User): Resolution
    requires IsKnownType(t)
  {
    var variables := MapOf(EmailEntries(t, p, user));
    if variables.None? then Threw(NullPointer)
    else Resolved(DispatchPayload(Some(EMAIL), Some(user.email), Some(EmailSubject(t, p)), Some(EmailTemplateFor(t)),
                                  variables, None, None, None, None))
  }

  /** The e-mail branch throws exactly when the user has no first name or the
      event's payload lacks a key the template reads. */
  lemma EmailResolvesIff(t: string, p: Payload, user: User)
    requires IsKnownType(t)
    ensures EmailPayload(t, p, user).Resolved? <==> user.firstName.Some? && RequiredKeys(t) <= p.Keys
  {
    var entries := EmailEntries(t, p, user);
    var allPresent := forall i :: 0 <= i < |entries| ==> entries[i].1.Some?;
    EventTypesDistinct();
    MapOfSucceedsIff(entries);
    assert MapOf(entries).Some? <==> allPresent;
    if t == MATCHED_JOBS {
      assert allPresent <==> entries[0].1.Some? && entries[1].1.Some? && entries[2].1.Some?;
      assert RequiredKeys(t) <= p.Keys <==> "matchedCount" in p && "matchedJobs" in p;
    } else {
      assert allPresent <==> entries[0].1.Some? && entries[1].1.Some? && entries[2].1.Some? && entries[3].1.Some?;
      assert RequiredKeys(t) <= p.Keys <==> "jobTitle" in p && "company" in p && "status" in p;
    }
  }

  function PushTitle(t: string): string {
    if t == APPLICATION_UPDATED then "Application Update \U{1F389}"
    else if t == MATCHED_JOBS then "New Job Matches \U{1F3AF}"
    else "Application Submitted \U{2705}"
  }

  function PushBody(t: string, p: Payload): string {
    if t == APPLICATION_UPDATED then
      Render(Get(p, "company")) + " updated your application to '" + Render(Get(p, "status")) + "'"
    else if t == MATCHED_JOBS then
      "We found " + Render(Get(p, "matchedCount")) + " new jobs matching your profile!"
    else
      "Your application for " + Render(Get(p, "jobTitle")) + " at " + Render(Get(p, "company")) + " has been submitted!"
  }

  function PushRedirect(t: string): string {
    if t == MATCHED_JOBS then "/jobs/matched" else "/my-applications"
  }

  /** The branch for any channel other than EMAIL: string concatenation only,
      so it cannot throw once the payload map is there. */
  function PushPayload(t: string, p: Payload, user: User): DispatchPayload {
    DispatchPayload(Some(PUSH), user.deviceToken, None, None, None,
                    Some(PushTitle(t)), Some(PushBody(t, p)), Some(PushRedirect(t)), Some(t))
  }

  /** resolveTemplate: a switch on the event type (which throws on a null
      type), then a choice on the channel. Each case dereferences the event's
      payload map, so a null map throws for every known type. */
  function ResolveTemplate(event: NotificationEvent, channel: Channel, user: User): (r: Resolution)
    ensures event.eventType.None? ==> r == Threw(NullPointer)
    ensures event.eventType.Some? && !IsKnownType(event.eventType.value) ==> r == NoTemplate
    ensures event.eventType.Some? && IsKnownType(event.eventType.value) && event.payload.None? ==>
              r == Threw(NullPointer)
    ensures r.NoTemplate? <==> event.eventType.Some? && !IsKnownType(event.eventType.value)
    ensures r.Resolved? ==> r.payload.channel == Some(channel)
    ensures r.Resolved? && channel == EMAIL ==>
              && r.payload.to == Some(user.email)
              && r.payload.template.Some? && TemplateName(r.payload.template.value) == event.eventType.value
              && r.payload.templateVariables.Some?
              && r.payload.title == None && r.payload.body == None
    ensures channel == PUSH && event.eventType.Some? && IsKnownType(event.eventType.value) && event.payload.Some? ==>
              && r.Resolved?
              && r.payload.to == user.deviceToken
              && r.payload.eventType == event.eventType
              && r.payload.template == None && r.payload.templateVariables == None
    ensures channel == EMAIL && event.eventType.Some? && IsKnownType(event.eventType.value) && event.payload.Some? ==>
              (r.Resolved? <==> user.firstName.Some? && RequiredKeys(event.eventType.value) <= event.payload.value.Keys)
              && (r.Threw? ==> r.error == NullPointer)
    ensures r.Resolved? && channel == EMAIL && event.eventType == Some(APPLICATION_UPDATED) ==>
              r.payload.subject == Some("Update on your application at " + Render(Get(event.payload.value, "company")))
    ensures r.Resolved? && channel == EMAIL && event.eventType == Some(MATCHED_JOBS) ==>
              r.payload.subject == Some("We found " + Render(Get(event.payload.value, "matchedCount")) + " new jobs for you!")
    ensures r.Resolved? && channel == EMAIL && event.eventType == Some(APPLICATION_SUBMITTED) ==>
              r.payload.subject
              == Some("Your application to " + Render(Get(event.payload.value, "company")) + " has been submitted!")
    ensures r.Resolved? && channel == PUSH && event.eventType == Some(APPLICATION_UPDATED) ==>
              && r.payload.title == Some("Application Update \U{1F389}")
              && r.payload.body == Some(Render(Get(event.payload.value, "company")) + " updated your application to '"
                                        + Render(Get(event.payload.value, "status")) + "'")
              && r.payload.redirectTo == Some("/my-applications")
    ensures r.Resolved? && channel == PUSH && event.eventType == Some(MATCHED_JOBS) ==>
              && r.payload.title == Some("New Job Matches \U{1F3AF}")
              && r.payload.body
                 == Some("We found " + Render(Get(event.payload.value, "matchedCount")) + " new jobs matching your profile!")
              && r.payload.redirectTo == Some("/jobs/matched")
    ensures r.Resolved? && channel == PUSH && event.eventType == Some(APPLICATION_SUBMITTED) ==>
              && r.payload.title == Some("Application Submitted \U{2705}")
              && r.payload.body == Some("Your application for " + Render(Get(event.payload.value, "jobTitle")) + " at "
                                        + Render(Get(event.payload.value, "company")) + " has been submitted!")
              && r.payload.redirectTo == Some("/my-applications")
  {
    if event.eventType.None? then Threw(NullPointer)
    else
      var t := event.eventType.value;
      if !IsKnownType(t) then NoTemplate
      else if event.payload.None? then Threw(NullPointer)
      else if channel == EMAIL then
        EmailResolvesIff(t, event.payload.value, user);
        EmailPayload(t, event.payload.value, user)
      else
        assert channel == PUSH;
        Resolved(PushPayload(t, event.payload.value, user))
  }

  // ---------------------------------------------------------------------
  // handle: the loop over the event's channels
  // ---------------------------------------------------------------------

  /** What handle has done after a prefix of the channel list: the records it
      published so far and the exception that stopped it, if one did. */
  datatype Fanout = Fanout(published: seq<Record<DispatchPayload>>, failure: Option<Error>)

  /** The effect of handle's loop over `channels` for a user that was found:
      each channel is resolved; a missing template, or PUSH to a user without
      a device token, is skipped; anything else is published under the user
      id; the first exception ends the loop. */
  function FanoutOf(event: NotificationEvent, user: User, channels: seq<Channel>): Fanout
    decreases |channels|
  {
    if channels == [] then Fanout([], None)
    else
      var before := FanoutOf(event, user, channels[..|channels| - 1]);
      var channel := channels[|channels| - 1];
      if before.failure.Some? then before
      else
        match ResolveTemplate(event, channel, user)
        case Threw(e) => Fanout(before.published, Some(e))
        case NoTemplate => before
        case Resolved(payload) =>
          if channel == PUSH && user.deviceToken.None? then before
          else Fanout(before.published + [Record(IntToString(event.userId), payload)], None)
  }

  /** At most one record per channel entry, each keyed by the user id and
      naming its channel; a published PUSH goes to the user's device token,
      which is then present, and a published EMAIL to the user's address. */
  lemma {:induction false} FanoutOfShape(event: NotificationEvent, user: User, channels: seq<Channel>)
    ensures |FanoutOf(event, user, channels).published| <= |channels|
    ensures forall r | r in FanoutOf(event, user, channels).published ::
              && r.key == IntToString(event.userId)
              && r.value.channel.Some?
              && (r.value.channel == Some(PUSH) ==> user.deviceToken.Some? && r.value.to == user.deviceToken)
              && (r.value.channel == Some(EMAIL) ==> r.value.to == Some(user.email))
    decreases |channels|
  {
    if channels != [] {
      FanoutOfShape(event, user, channels[..|channels| - 1]);
    }
  }

  /** Once an exception has stopped the loop, the channels after it change
      nothing. */
  lemma {:induction false} FanoutStopsAtFailure(event: NotificationEvent, user: User, channels: seq<Channel>, k: nat)
    requires k <= |channels| && FanoutOf(event, user, channels[..k]).failure.Some?
    ensures FanoutOf(event, user, channels) == FanoutOf(event, user, channels[..k])
    decreases |channels|
  {
    if k < |channels| {
      var shorter := channels[..|channels| - 1];
      assert shorter[..k] == channels[..k];
      FanoutStopsAtFailure(event, user, shorter, k);
    } else {
      assert channels[..k] == channels;
    }
  }

  /** Channels are handled independently and in list order: the records for
      `a + b` are those for `a` followed by those for `b`, unless `a` already
      ended in an exception. */
  lemma {:induction false} FanoutAppend(event: NotificationEvent, user: User, a: seq<Channel>, b: seq<Channel>)
    ensures FanoutOf(event, user, a + b) ==
              if FanoutOf(event, user, a).failure.Some? then FanoutOf(event, user, a)
              else Fanout(FanoutOf(event, user, a).published + FanoutOf(event, user, b).published,
                          FanoutOf(event, user, b).failure)
    decreases |b|
  {
    if b == [] {
      assert a + b == a;
    } else {
      var b', last := b[..|b| - 1], b[|b| - 1];
      assert (a + b)[..|a + b| - 1] == a + b' && (a + b)[|a + b| - 1] == last;
      FanoutAppend(event, user, a, b');
      var r := ResolveTemplate(event, last, user);
      if FanoutOf(event, user, a).failure.None? && FanoutOf(event, user, b').failure.None? && r.Resolved? {
        AppendRegroup(FanoutOf(event, user, a).published, FanoutOf(event, user, b').published,
                      Record(IntToString(event.userId), r.payload));
      }
    }
  }

  /** An event type with no case publishes nothing, whatever the channels. */
  lemma {:induction false} UnknownTypePublishesNothing(event: NotificationEvent, user: User, channels: seq<Channel>)
    requires event.eventType.Some? && !IsKnownType(event.eventType.value)
    ensures FanoutOf(event, user, channels) == Fanout([], None)
    decreases |channels|
  {
    if channels != [] {
      UnknownTypePublishesNothing(event, user, channels[..|channels| - 1]);
    }
  }

  /** For a known type with its payload map, a PUSH entry is skipped exactly
      when the user has no device token; EMAIL is never skipped for it. */
  lemma PushSkippedIffNoToken(event: NotificationEvent, user: User)
    requires event.eventType.Some? && IsKnownType(event.eventType.value) && event.payload.Some?
    ensures FanoutOf(event, user, [PUSH]).failure == None
    ensures FanoutOf(event, user, [PUSH]).published == [] <==> user.deviceToken.None?
    ensures FanoutOf(event, user, [EMAIL]).published == [] <==> ResolveTemplate(event, EMAIL, user).Threw?
  {
    assert [PUSH][..0] == [] && [EMAIL][..0] == [];
  }

  /** A last channel that resolves and is not skipped adds its one record. */
  lemma FanoutPublishesLast(event: NotificationEvent, user: User, channels: seq<Channel>)
    requires channels != [] && FanoutOf(event, user, channels[..|channels| - 1]).failure == None
    requires ResolveTemplate(event, channels[|channels| - 1], user).Resolved?
    requires channels[|channels| - 1] == PUSH ==> user.deviceToken.Some?
    ensures FanoutOf(event, user, channels)
            == Fanout(FanoutOf(event, user, channels[..|channels| - 1]).published
                      + [Record(IntToString(event.userId), ResolveTemplate(event, channels[|channels| - 1], user).payload)],
                      None)
  {
  }

  /** When nothing can fail or be skipped, every channel entry, duplicates
      included, yields one record for that channel, in list order. */
  lemma {:induction false} EveryChannelPublished(event: NotificationEvent, user: User, channels: seq<Channel>)
    requires event.eventType.Some? && IsKnownType(event.eventType.value) && event.payload.Some?
    requires user.firstName.Some? && RequiredKeys(event.eventType.value) <= event.payload.value.Keys
    requires user.deviceToken.Some?
    ensures FanoutOf(event, user, channels).failure == None
    ensures |FanoutOf(event, user, channels).published| == |channels|
    ensures forall i :: 0 <= i < |channels| ==>
              FanoutOf(event, user, channels).published[i].value.channel == Some(channels[i])
    decreases |channels|
  {
    if channels != [] {
      var n := |channels| - 1;
      var shorter, last := channels[..n], channels[n];
      EveryChannelPublished(event, user, shorter);
      var before := FanoutOf(event, user, shorter);
      var resolved := ResolveTemplate(event, last, user);
      assert resolved.Resolved? && resolved.payload.channel == Some(last);
      FanoutPublishesLast(event, user, channels);
      var published := before.published + [Record(IntToString(event.userId), resolved.payload)];
      assert FanoutOf(event, user, channels) == Fanout(published, None);
      forall i | 0 <= i < |channels|
        ensures published[i].value.channel == Some(channels[i])
      {
        if i < n {
          assert published[i] == before.published[i] && shorter[i] == channels[i];
        }
      }
    }
  }

  /** An exception in a later channel does not undo the earlier publications:
      PUSH then EMAIL for a user without a first name publishes the PUSH
      record and then throws. */
  lemma PublishedBeforeFailure(event: NotificationEvent, user: User)
    requires event.eventType.Some? && IsKnownType(event.eventType.value) && event.payload.Some?
    requires user.deviceToken.Some? && user.firstName.None?
    ensures |FanoutOf(event, user, [PUSH, EMAIL]).published| == 1
    ensures FanoutOf(event, user, [PUSH, EMAIL]).published[0].value.channel == Some(PUSH)
    ensures FanoutOf(event, user, [PUSH, EMAIL]).failure == Some(NullPointer)
  {
    FanoutAppend(event, user, [PUSH], [EMAIL]);
    assert [PUSH] + [EMAIL] == [PUSH, EMAIL];
    assert [PUSH][..0] == [] && [EMAIL][..0] == [];
  }

  /** A submitted application's event sent on EMAIL and PUSH to a user with a
      first name and a device token: the e-mail names the company in its
      subject, then the push carries the submission title, text and link. */
  lemma SubmittedToEmailAndPush(event: NotificationEvent, user: User)
    requires event.eventType == Some(APPLICATION_SUBMITTED) && event.payload.Some?
    requires "jobTitle" in event.payload.value && "company" in event.payload.value && "status" in event.payload.value
    requires user.firstName.Some? && user.deviceToken.Some?
    ensures FanoutOf(event, user, [EMAIL, PUSH]).failure == None
    ensures |FanoutOf(event, user, [EMAIL, PUSH]).published| == 2
    ensures FanoutOf(event, user, [EMAIL, PUSH]).published[0]
            == Record(IntToString(event.userId), FanoutOf(event, user, [EMAIL, PUSH]).published[0].value)
    ensures FanoutOf(event, user, [EMAIL, PUSH]).published[0].value.channel == Some(EMAIL)
    ensures FanoutOf(event, user, [EMAIL, PUSH]).published[0].value.to == Some(user.email)
    ensures FanoutOf(event, user, [EMAIL, PUSH]).published[0].value.subject
            == Some("Your application to " + Render(Some(event.payload.value["company"])) + " has been submitted!")
    ensures FanoutOf(event, user, [EMAIL, PUSH]).published[1].key == IntToString(event.userId)
    ensures FanoutOf(event, user, [EMAIL, PUSH]).published[1].value.channel == Some(PUSH)
    ensures FanoutOf(event, user, [EMAIL, PUSH]).published[1].value.to == user.deviceToken
    ensures FanoutOf(event, user, [EMAIL, PUSH]).published[1].value.title == Some("Application Submitted \U{2705}")
    ensures FanoutOf(event, user, [EMAIL, PUSH]).published[1].value.body
            == Some("Your application for " + Render(Some(event.payload.value["jobTitle"])) + " at "
                    + Render(Some(event.payload.value["company"])) + " has been submitted!")
    ensures FanoutOf(event, user, [EMAIL, PUSH]).published[1].value.redirectTo == Some("/my-applications")
  {
    EventTypesDistinct();
    EmailResolvesIff(APPLICATION_SUBMITTED, event.payload.value, user);
    FanoutAppend(event, user, [EMAIL], [PUSH]);
    assert [EMAIL] + [PUSH] == [EMAIL, PUSH];
    assert [EMAIL][..0] == [] && [PUSH][..0] == [];
  }

  /** A key missing from the event's payload is rendered as "null" in the push
      text, while the e-mail, whose Map.of refuses the null, throws. */
  lemma MissingKeyRendersNull(event: NotificationEvent, user: User)
    requires event.eventType == Some(APPLICATION_SUBMITTED) && event.payload.Some?
    requires "company" !in event.payload.value
    ensures ResolveTemplate(event, PUSH, user).Resolved?
    ensures ResolveTemplate(event, PUSH, user).payload.body
            == Some("Your application for " + Render(Get(event.payload.value, "jobTitle")) + " at " + "null"
                    + " has been submitted!")
    ensures ResolveTemplate(event, EMAIL, user) == Threw(NullPointer)
  {
    EventTypesDistinct();
    EmailResolvesIff(APPLICATION_SUBMITTED, event.payload.value, user);
  }

  /** The orchestrator with its dispatch topic. */
  class NotificationOrchestrator {
    var outbox: seq<Record<DispatchPayload>>

    constructor ()
      ensures outbox == []
    {
      outbox := [];
    }

    /** handle: look the user up (a missing user escapes as an exception before
        anything is sent), then run the channel loop; an exception in the loop
        escapes after the records already sent. */
    method Handle(event: NotificationEvent, users: map<UserId, User>) returns (r: Result<()>)
      modifies this
      ensures event.userId !in users ==> r == Err(ResourceNotFound) && outbox == old(outbox)
      ensures event.userId in users ==>
                && outbox == old(outbox) + FanoutOf(event, users[event.userId], event.channels).published
                && (r.Ok? <==> FanoutOf(event, users[event.userId], event.channels).failure.None?)
                && (r.Err? ==> Some(r.error) == FanoutOf(event, users[event.userId], event.channels).failure)
    {
      if event.userId !in users {
        return Err(ResourceNotFound);
      }
      var user := users[event.userId];
      var channels := event.channels;
      for i := 0 to |channels|
        invariant FanoutOf(event, user, channels[..i]).failure == None
        invariant outbox == old(outbox) + FanoutOf(event, user, channels[..i]).published
      {
        var channel := channels[i];
        assert channels[..i + 1][..i] == channels[..i];
        var payload := ResolveTemplate(event, channel, user);
        if payload.Threw? {
          FanoutStopsAtFailure(event, user, channels, i + 1);
          return Err(payload.error);
        }
        if payload.NoTemplate? {
          continue;
        }
        if channel == PUSH && user.deviceToken.None? {
          continue;
        }
        outbox := outbox + [Record(IntToString(event.userId), payload.payload)];
      }
      assert channels[..|channels|] == channels;
      r := Ok(());
    }
  }
}
