/** The VK Callback API endpoint of `app/api/vk-webhook/route.js`: it answers the
    confirmation request with the group's code, hands every new message to the bot,
    and answers everything else, errors included, with 200 "ok" so that VK does not
    deliver the event again. */
module Webhook {
  import opened Options
  import opened Handlers

  /** The parts of a Callback API event the endpoint reads. */
  datatype EventObject = EventObject(message: Option<Message>)
  datatype Body = Body(eventType: Option<string>, eventObject: Option<EventObject>)

  /** A request whose body is JSON, or one whose body does not parse. */
  datatype Request = Unparsable | Json(body: Body)

  datatype Response = Response(status: int, body: string)

  predicate IsConfirmation(request: Request) {
    request.Json? && request.body.eventType == Some("confirmation")
  }

  /** The message a `message_new` event carries, when it carries one:
      `body.object.message` throws without an object, and the handler throws at once
      without a message; both end in the catch before anything changes. */
  function NewMessage(request: Request): (m: Option<Message>)
    ensures m.Some? ==> request.Json? && request.body.eventType == Some("message_new")
  {
    if request.Json? && request.body.eventType == Some("message_new") && request.body.eventObject.Some? then
      request.body.eventObject.value.message
    else None
  }

  /** The response: the confirmation code for the confirmation request, "ok" for any
      other request, whether it was handled, ignored or threw. */
  function ResponseTo(request: Request, confirmationCode: string): (r: Response)
    ensures r.status == 200
  {
    if IsConfirmation(request) then Response(200, confirmationCode) else Response(200, "ok")
  }

  /** What a request does to the bot's world: only a new message changes anything, and
      what its handler did before throwing stays done. */
  function PostStep(w: World, request: Request, env: Env): World {
    match NewMessage(request)
    case None => w
    case Some(m) => HandleVKMessageStep(w, m, env).w
  }

  /** `POST(request)` */
  method Post(bot: Bot, request: Request, env: Env, confirmationCode: string) returns (response: Response)
    requires bot.store.Valid()
    modifies bot.store, bot.api, bot`orderTimers
    ensures bot.store.Valid()
    ensures response == ResponseTo(request, confirmationCode)
    ensures bot.State() == PostStep(old(bot.State()), request, env)
  {
    if request.Unparsable? {
      return Response(200, "ok");
    }
    if request.body.eventType == Some("confirmation") {
      return Response(200, confirmationCode);
    }
    var message := NewMessage(request);
    if message.Some? {
      var threw := bot.HandleVKMessage(message.value, env);
    }
    return Response(200, "ok");
  }

  /** The confirmation request changes nothing and is answered with the code. */
  lemma ConfirmationChangesNothing(w: World, request: Request, env: Env, confirmationCode: string)
    requires IsConfirmation(request)
    ensures PostStep(w, request, env) == w
    ensures ResponseTo(request, confirmationCode) == Response(200, confirmationCode)
  {
  }

  /** A `message_new` event with a message is handled exactly as the handler handles
      that message, and answered "ok" even when the handler threw. */
  lemma NewMessageHandledOnce(w: World, m: Message, env: Env, confirmationCode: string)
    ensures var request := Json(Body(Some("message_new"), Some(EventObject(Some(m)))));
            && PostStep(w, request, env) == HandleVKMessageStep(w, m, env).w
            && ResponseTo(request, confirmationCode) == Response(200, "ok")
  {
  }

  /** Every other event, and every request whose body does not parse, is answered "ok"
      and changes nothing. */
  lemma OtherEventsIgnored(w: World, request: Request, env: Env, confirmationCode: string)
    requires !(request.Json? && request.body.eventType == Some("message_new"))
    ensures PostStep(w, request, env) == w
    ensures !IsConfirmation(request) ==> ResponseTo(request, confirmationCode) == Response(200, "ok")
  {
  }
}
