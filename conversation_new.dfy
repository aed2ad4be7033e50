/**
 * `POST /api/conversation/new`: asks the RAG backend to forget a conversation, when a
 * backend is configured and a conversation id is given. Whatever happens, the reply is
 * `{ status: "ok" }`.
 */
module ConversationNew {
  import opened Wrappers
  import opened JsText
  import opened ChatRoute

  /** The request: a body with an optional `conversation_id`, or a body that failed to parse. */
  datatype NewConversationRequest = NewParsed(conversationId: Option<string>) | NewMalformed

  /** The one outbound call the handler may make: `POST {backend}/api/conversation/new` with `{ conversation_id }`. */
  datatype ForwardCall = ForwardCall(url: string, conversationId: string)

  /** What the backend did with a forwarded call: any status, or a throw. */
  datatype ForwardOutcome = ForwardAnswered(status: int) | ForwardThrew

  /** The handler's effect and answer. */
  datatype NewConversationResult = NewConversationResult(forward: Option<ForwardCall>, status: string)

  /** The call to make, if any: none without a backend, and none without a non-empty conversation id. */
  function ForwardOf(rawBackend: Option<string>, request: NewConversationRequest): (f: Option<ForwardCall>)
    ensures f.Some? <==> ConfiguredBackend(rawBackend).Some? && request.NewParsed? && Truthy(request.conversationId)
    ensures f.Some? ==> f.value.conversationId == request.conversationId.value
                        && f.value.url == ConfiguredBackend(rawBackend).value + "/api/conversation/new"
  {
    match request
    case NewMalformed => None
    case NewParsed(id) =>
      var backend := ConfiguredBackend(rawBackend);
      if backend.None? then None
      else if !Truthy(id) then None
      else Some(ForwardCall(backend.value + "/api/conversation/new", id.value))
  }

  /** `POST`: the forward decision, then `"ok"` whatever the backend answered or threw. */
  function NewConversation(rawBackend: Option<string>, request: NewConversationRequest, outcome: ForwardOutcome): NewConversationResult {
    var forward := ForwardOf(rawBackend, request);
    if forward.None? then NewConversationResult(None, "ok")
    else match outcome
      case ForwardAnswered(_) => NewConversationResult(forward, "ok")
      case ForwardThrew => NewConversationResult(forward, "ok")
  }

  /** The reply is always `"ok"`, and neither a backend error nor a throw changes anything. */
  lemma AlwaysOk(rawBackend: Option<string>, request: NewConversationRequest, o1: ForwardOutcome, o2: ForwardOutcome)
    ensures NewConversation(rawBackend, request, o1).status == "ok"
    ensures NewConversation(rawBackend, request, o1) == NewConversation(rawBackend, request, o2)
  {
  }

  /** Without a backend, or with a null, absent or empty conversation id, nothing is sent. */
  lemma NoForwardWithoutTarget(rawBackend: Option<string>, id: Option<string>, outcome: ForwardOutcome)
    requires ConfiguredBackend(rawBackend).None? || id.None? || id == Some("")
    ensures NewConversation(rawBackend, NewParsed(id), outcome).forward.None?
  {
  }
}
