/** The dispatch consumer: it routes each dispatch payload to the e-mail
    sender or the push sender according to its channel. */
module Dispatch {
  import opened Common
  import opened Events

  /** The call the consumer makes into one of the two senders. */
  datatype SenderCall =
    | SendEmail(to: Option<string>, subject: Option<string>, template: Option<EmailTemplate>,
                variables: Option<map<string, Value>>)
    | SendPush(payload: DispatchPayload)

  /** handle: a switch on the channel inside a catch-all. EMAIL hands the four
      e-mail fields to the e-mail sender, PUSH hands the whole payload to the
      push sender, and a null channel makes the switch throw, which the catch
      swallows: None is "no sender called". Whatever a sender throws is
      swallowed as well, so the handler always returns normally. */
  function Handle(payload: DispatchPayload): (call: Option<SenderCall>)
    ensures call.Some? <==> payload.channel.Some?
    ensures call.Some? && call.value.SendEmail? <==> payload.channel == Some(EMAIL)
    ensures call.Some? && call.value.SendEmail? ==>
              call.value.to == payload.to && call.value.subject == payload.subject
              && call.value.template == payload.template && call.value.variables == payload.templateVariables
    ensures call.Some? && call.value.SendPush? ==> call.value.payload == payload
  {
    match payload.channel
    case None => None
    case Some(EMAIL) => Some(SendEmail(payload.to, payload.subject, payload.template, payload.templateVariables))
    case Some(PUSH) => Some(SendPush(payload))
  }
}
