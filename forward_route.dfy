/**
 * The forwarding endpoint `POST /api/openai`: it validates the request body,
 * shapes the chat-completion parameters, forwards them to the provider and
 * turns the provider's reply (or a thrown exception) into the response the
 * page receives. Every step is a decision on values, so everything here is a
 * function; the two network calls are inputs.
 */
module ForwardRoute {
  import opened Opt

  // ---------------------------------------------------------------------
  // Request and parameters
  // ---------------------------------------------------------------------

  /** A sampling value exactly as the client sent it; its parsing is not modelled. */
  datatype Tunable = Tunable(raw: string)

  const DefaultTemperature := Tunable("0.7")
  const DefaultTopP := Tunable("1.0")
  const DefaultMaxTokens := Tunable("1024")

  /** The parsed request body; `None` is a key that is absent. */
  datatype Request = Request(
    prompt: Option<string>,
    model: Option<string>,
    apiKey: Option<string>,
    temperature: Option<Tunable>,
    topP: Option<Tunable>,
    maxTokens: Option<Tunable>)

  /** The two model-support lists the endpoint imports from its constants module. */
  datatype SupportLists = SupportLists(topPModels: seq<string>, temperatureModels: seq<string>)

  datatype Message = Message(role: string, content: string)

  /** The body sent to the provider; `None` is a key that is not attached. */
  datatype ChatParams = ChatParams(
    model: string,
    messages: seq<Message>,
    maxCompletionTokens: Tunable,
    topP: Option<Tunable>,
    temperature: Option<Tunable>)

  /** A destructuring default: `x = d` takes `d` only when the key is absent. */
  function WithDefault(o: Option<Tunable>, d: Tunable): Tunable
  {
    if o.Some? then o.value else d
  }

  // ---------------------------------------------------------------------
  // Thrown values, the provider's reply and the endpoint's response
  // ---------------------------------------------------------------------

  /** A thrown JavaScript value: an `Error` instance with its message, or anything else. */
  datatype Thrown = ErrorObject(message: string) | OtherValue

  /** What an awaited call produced: a value, or an exception. */
  datatype Outcome<+T> = Returned(value: T) | Threw(thrown: Thrown)

  /** The provider's `error` object; each field may be absent. */
  datatype ProviderError = ProviderError(message: Option<string>, errorType: Option<string>, code: Option<string>)

  /** The parts of the provider's JSON the endpoint reads. `choices` holds each
      choice's message content; `totalTokens` is `None` when `usage` is absent. */
  datatype ProviderData = ProviderData(error: Option<ProviderError>, choices: seq<string>, totalTokens: Option<int>)

  /** The provider's HTTP reply: its status and the outcome of `response.json()`. */
  datatype ProviderReply = ProviderReply(status: int, data: Outcome<ProviderData>)

  /** The `code` key of the error details: a string, `null`, or not present at all. */
  datatype CodeField = CodeValue(code: string) | NullCode | NoCodeKey

  datatype Details = Details(errorType: string, code: CodeField, originalMessage: string)

  datatype Body =
    | Completion(response: string, tokens: int)
    | Failure(error: string, details: Option<Details>)

  datatype Response = Response(status: int, body: Body)

  /** `response.ok` of the Fetch API. */
  predicate IsOk(status: int)
  {
    200 <= status <= 299
  }

  const MissingFieldsMessage := "Missing required fields: prompt, model, and apiKey are required"
  const DefaultErrorMessage := "OpenAI API error occurred"
  const UnknownErrorType := "unknown_error"
  const InvalidKeyMessage := "Invalid API key. Please check your OpenAI API key and try again."
  const QuotaMessage := "Insufficient quota. You have exceeded your OpenAI API usage limits."
  const RateLimitMessage := "Rate limit exceeded. Please wait a moment before trying again."
  const UnavailableMessage := "OpenAI service is temporarily unavailable. Please try again later."
  const ConnectionMessage := "Failed to connect to OpenAI API. Please check your internet connection and try again."
  const UnknownThrownMessage := "Unknown error occurred"
  const NetworkErrorType := "network_error"

  function ModelNotFoundMessage(model: string): string
  {
    "Model \"" + model + "\" not found or not accessible with your API key."
  }

  // ---------------------------------------------------------------------
  // Validation
  // ---------------------------------------------------------------------

  /** The required-field check: prompt, model and apiKey must all be truthy. */
  function Validate(req: Request): (r: Option<Response>)
    ensures r.Some? <==> !Truthy(req.prompt) || !Truthy(req.model) || !Truthy(req.apiKey)
    ensures r.Some? ==> r.value == Response(400, Failure(MissingFieldsMessage, None))
  {
    if !Truthy(req.prompt) || !Truthy(req.model) || !Truthy(req.apiKey) then
      Some(Response(400, Failure(MissingFieldsMessage, None)))
    else
      None
  }

  // ---------------------------------------------------------------------
  // Parameters
  // ---------------------------------------------------------------------

  /** The `params` object: a literal with the model, the single user message and
      `max_completion_tokens`, then `top_p` and `temperature` attached only for
      models in the corresponding support list. */
  function BuildParams(model: string, prompt: string, req: Request, lists: SupportLists): (p: ChatParams)
    ensures p.model == model && p.messages == [Message("user", prompt)]
    ensures p.maxCompletionTokens == WithDefault(req.maxTokens, DefaultMaxTokens)
    ensures p.topP.Some? <==> model in lists.topPModels
    ensures p.topP.Some? ==> p.topP.value == WithDefault(req.topP, DefaultTopP)
    ensures p.temperature.Some? <==> model in lists.temperatureModels
    ensures p.temperature.Some? ==> p.temperature.value == WithDefault(req.temperature, DefaultTemperature)
  {
    var base := ChatParams(model, [Message("user", prompt)], WithDefault(req.maxTokens, DefaultMaxTokens), None, None);
    var withTopP := if model in lists.topPModels then base.(topP := Some(WithDefault(req.topP, DefaultTopP))) else base;
    if model in lists.temperatureModels then
      withTopP.(temperature := Some(WithDefault(req.temperature, DefaultTemperature)))
    else
      withTopP
  }

  /** The JSON keys of a params object. */
  function Keys(p: ChatParams): set<string>
  {
    {"model", "messages", "max_completion_tokens"}
      + (if p.topP.Some? then {"top_p"} else {})
      + (if p.temperature.Some? then {"temperature"} else {})
  }

  /** `max_completion_tokens` is always sent; `top_p` and `temperature` are sent
      exactly for the models on their support lists, whatever the request held. */
  lemma ParamsKeys(model: string, prompt: string, req: Request, lists: SupportLists)
    ensures "max_completion_tokens" in Keys(BuildParams(model, prompt, req, lists))
    ensures "top_p" in Keys(BuildParams(model, prompt, req, lists)) <==> model in lists.topPModels
    ensures "temperature" in Keys(BuildParams(model, prompt, req, lists)) <==> model in lists.temperatureModels
  {
  }

  /** The provider call the endpoint makes for a request body, if any. */
  function UpstreamCall(body: Outcome<Request>, lists: SupportLists): (r: Option<ChatParams>)
    ensures r.Some? <==> body.Returned? && Validate(body.value).None?
    ensures r.Some? ==> r.value == BuildParams(body.value.model.value, body.value.prompt.value, body.value, lists)
  {
    if body.Returned? && Validate(body.value).None? then
      Some(BuildParams(body.value.model.value, body.value.prompt.value, body.value, lists))
    else
      None
  }

  // ---------------------------------------------------------------------
  // Error classification
  // ---------------------------------------------------------------------

  datatype MessageKind = InvalidKey | InsufficientQuota | ModelNotFound | RateLimited | ServiceUnavailable | Passthrough

  /** The chosen message kind together with the status that is passed through. */
  datatype Classification = Classification(kind: MessageKind, status: int)

  /** Whether the condition of one rule of the chain holds on its own. */
  predicate Fires(k: MessageKind, errorType: string, errorCode: Option<string>, status: int)
  {
    match k
    case InvalidKey => errorType == "invalid_api_key" || status == 401
    case InsufficientQuota => errorType == "insufficient_quota" || errorCode == Some("insufficient_quota")
    case ModelNotFound => errorType == "model_not_found"
    case RateLimited => errorType == "rate_limit_exceeded"
    case ServiceUnavailable => status >= 500
    case Passthrough => true
  }

  /** The if/else chain: the first of the rules, in source order, whose condition holds. */
  function Classify(errorType: string, errorCode: Option<string>, status: int): (c: Classification)
    ensures c.status == status
    ensures c.kind == InvalidKey <==> errorType == "invalid_api_key" || status == 401
    ensures c.kind == InsufficientQuota <==>
      !(errorType == "invalid_api_key" || status == 401)
      && (errorType == "insufficient_quota" || errorCode == Some("insufficient_quota"))
    ensures c.kind == ModelNotFound <==>
      !Fires(InvalidKey, errorType, errorCode, status) && !Fires(InsufficientQuota, errorType, errorCode, status)
      && errorType == "model_not_found"
    ensures c.kind == RateLimited <==>
      !Fires(InvalidKey, errorType, errorCode, status) && !Fires(InsufficientQuota, errorType, errorCode, status)
      && errorType == "rate_limit_exceeded"
    ensures c.kind == ServiceUnavailable <==>
      !Fires(InvalidKey, errorType, errorCode, status) && !Fires(InsufficientQuota, errorType, errorCode, status)
      && errorType != "model_not_found" && errorType != "rate_limit_exceeded" && status >= 500
    ensures c.kind == Passthrough <==>
      !Fires(InvalidKey, errorType, errorCode, status) && !Fires(InsufficientQuota, errorType, errorCode, status)
      && errorType != "model_not_found" && errorType != "rate_limit_exceeded" && status < 500
  {
    var kind :=
      if errorType == "invalid_api_key" || status == 401 then InvalidKey
      else if errorType == "insufficient_quota" || errorCode == Some("insufficient_quota") then InsufficientQuota
      else if errorType == "model_not_found" then ModelNotFound
      else if errorType == "rate_limit_exceeded" then RateLimited
      else if status >= 500 then ServiceUnavailable
      else Passthrough;
    Classification(kind, status)
  }

  /** The rules of the chain in priority order; `Passthrough` is the fallback. */
  const Priority: seq<MessageKind> := [InvalidKey, InsufficientQuota, ModelNotFound, RateLimited, ServiceUnavailable]

  /** Reference definition of a prioritised rule list: the first rule that fires. */
  function FirstFiring(rules: seq<MessageKind>, errorType: string, errorCode: Option<string>, status: int): (k: MessageKind)
    ensures k == Passthrough || k in rules
    ensures Fires(k, errorType, errorCode, status)
  {
    if rules == [] then Passthrough
    else if Fires(rules[0], errorType, errorCode, status) then rules[0]
    else FirstFiring(rules[1..], errorType, errorCode, status)
  }

  /** A kind is chosen by a rule list exactly when it fires and no earlier rule fires. */
  lemma {:induction false} FirstFiringIsFirst(rules: seq<MessageKind>, errorType: string, errorCode: Option<string>, status: int, i: nat)
    requires i < |rules|
    requires forall j, k :: 0 <= j < k < |rules| ==> rules[j] != rules[k]
    ensures FirstFiring(rules, errorType, errorCode, status) == rules[i] <==>
      Fires(rules[i], errorType, errorCode, status)
      && forall j :: 0 <= j < i ==> !Fires(rules[j], errorType, errorCode, status)
  {
    if i > 0 && !Fires(rules[0], errorType, errorCode, status) {
      FirstFiringIsFirst(rules[1..], errorType, errorCode, status, i - 1);
      assert forall j :: 1 <= j < i ==> rules[j] == rules[1..][j - 1];
    }
  }

  /** The chain in the endpoint is exactly the prioritised rule list `Priority`. */
  lemma ClassifyFollowsPriority(errorType: string, errorCode: Option<string>, status: int)
    ensures Classify(errorType, errorCode, status).kind == FirstFiring(Priority, errorType, errorCode, status)
  {
    var p1, p2, p3, p4 := Priority[1..], Priority[2..], Priority[3..], Priority[4..];
    assert p1[1..] == p2 && p2[1..] == p3 && p3[1..] == p4 && p4[1..] == [];
    var e, c, s := errorType, errorCode, status;
    assert FirstFiring(p4, e, c, s) == if s >= 500 then ServiceUnavailable else Passthrough;
    assert FirstFiring(p3, e, c, s) == if Fires(RateLimited, e, c, s) then RateLimited else FirstFiring(p4, e, c, s);
    assert FirstFiring(p2, e, c, s) == if Fires(ModelNotFound, e, c, s) then ModelNotFound else FirstFiring(p3, e, c, s);
    assert FirstFiring(p1, e, c, s) == if Fires(InsufficientQuota, e, c, s) then InsufficientQuota else FirstFiring(p2, e, c, s);
  }

  /** Status 401 selects the invalid-key message whatever the type, code or other rules say. */
  lemma UnauthorizedWins(errorType: string, errorCode: Option<string>)
    ensures Classify(errorType, errorCode, 401).kind == InvalidKey
  {
  }

  /** A 429 reply is classified as a rate limit only when the provider's type says so. */
  lemma Status429AloneIsNotRateLimited(errorType: string, errorCode: Option<string>)
    requires errorType != "rate_limit_exceeded"
    ensures Classify(errorType, errorCode, 429).kind != RateLimited
  {
  }

  /** The user-facing message of a classification. */
  function FriendlyMessage(kind: MessageKind, model: string, errorMessage: string): string
  {
    match kind
    case InvalidKey => InvalidKeyMessage
    case InsufficientQuota => QuotaMessage
    case ModelNotFound => ModelNotFoundMessage(model)
    case RateLimited => RateLimitMessage
    case ServiceUnavailable => UnavailableMessage
    case Passthrough => errorMessage
  }

  // ---------------------------------------------------------------------
  // Response records
  // ---------------------------------------------------------------------

  /** The response to a provider reply that is not ok. */
  function ErrorResponse(model: string, status: int, error: Option<ProviderError>): (r: Response)
    ensures r.status == status && r.body.Failure? && r.body.details.Some?
    ensures var message := if error.Some? then OrElse(error.value.message, DefaultErrorMessage) else DefaultErrorMessage;
      var errorType := if error.Some? then OrElse(error.value.errorType, UnknownErrorType) else UnknownErrorType;
      var code := if error.Some? && Truthy(error.value.code) then Some(error.value.code.value) else None;
      && r.body.details.value.originalMessage == message
      && r.body.details.value.errorType == errorType
      && r.body.details.value.code == (if code.Some? then CodeValue(code.value) else NullCode)
      && r.body.error == FriendlyMessage(Classify(errorType, code, status).kind, model, message)
  {
    var message := if error.Some? then OrElse(error.value.message, DefaultErrorMessage) else DefaultErrorMessage;
    var errorType := if error.Some? then OrElse(error.value.errorType, UnknownErrorType) else UnknownErrorType;
    var code := if error.Some? && Truthy(error.value.code) then Some(error.value.code.value) else None;
    var c := Classify(errorType, code, status);
    Response(c.status, Failure(FriendlyMessage(c.kind, model, message),
      Some(Details(errorType, if code.Some? then CodeValue(code.value) else NullCode, message))))
  }

  /** The message `originalMessage` records for a thrown value. */
  function ThrownMessage(t: Thrown): string
  {
    match t
    case ErrorObject(m) => m
    case OtherValue => UnknownThrownMessage
  }

  /** The response to any exception caught by the endpoint. */
  function ExceptionResponse(t: Thrown): (r: Response)
    ensures r.status == 500
    ensures r.body == Failure(ConnectionMessage, Some(Details(NetworkErrorType, NoCodeKey, ThrownMessage(t))))
  {
    Response(500, Failure(ConnectionMessage, Some(Details(NetworkErrorType, NoCodeKey, ThrownMessage(t)))))
  }

  /** The response to an ok provider reply: the first choice's content and the
      total token count. Reading either when it is missing raises a `TypeError`
      whose message, `engineMessage`, is the JavaScript engine's. */
  function SuccessResponse(data: ProviderData, engineMessage: string): (r: Response)
    ensures |data.choices| > 0 && data.totalTokens.Some? ==>
      r == Response(200, Completion(data.choices[0], data.totalTokens.value))
    ensures |data.choices| == 0 || data.totalTokens.None? ==>
      r == ExceptionResponse(ErrorObject(engineMessage))
  {
    if |data.choices| > 0 && data.totalTokens.Some? then
      Response(200, Completion(data.choices[0], data.totalTokens.value))
    else
      ExceptionResponse(ErrorObject(engineMessage))
  }

  // ---------------------------------------------------------------------
  // The handler
  // ---------------------------------------------------------------------

  /** `POST`: `body` is the outcome of `request.json()`, `upstream` the outcome of
      the provider fetch made with `UpstreamCall(body, lists)`. */
  function Post(body: Outcome<Request>, lists: SupportLists, upstream: Outcome<ProviderReply>, engineMessage: string): (r: Response)
    ensures body.Threw? ==> r == ExceptionResponse(body.thrown)
    ensures body.Returned? && Validate(body.value).Some? ==> r == Validate(body.value).value
    ensures UpstreamCall(body, lists).Some? ==>
      match upstream
      case Threw(t) => r == ExceptionResponse(t)
      case Returned(reply) =>
        match reply.data
        case Threw(t) => r == ExceptionResponse(t)
        case Returned(data) =>
          if IsOk(reply.status) then r == SuccessResponse(data, engineMessage)
          else r == ErrorResponse(body.value.model.value, reply.status, data.error)
  {
    match body
    case Threw(t) => ExceptionResponse(t)
    case Returned(req) =>
      var rejected := Validate(req);
      if rejected.Some? then rejected.value
      else
        match upstream
        case Threw(t) => ExceptionResponse(t)
        case Returned(reply) =>
          match reply.data
          case Threw(t) => ExceptionResponse(t)
          case Returned(data) =>
            if IsOk(reply.status) then SuccessResponse(data, engineMessage)
            else ErrorResponse(req.model.value, reply.status, data.error)
  }

  /** A rejected request never reaches the provider: the response is the same
      whatever the provider would have answered. */
  lemma RejectedRequestIgnoresUpstream(req: Request, lists: SupportLists, u1: Outcome<ProviderReply>, u2: Outcome<ProviderReply>, e1: string, e2: string)
    requires !Truthy(req.prompt) || !Truthy(req.model) || !Truthy(req.apiKey)
    ensures UpstreamCall(Returned(req), lists).None?
    ensures Post(Returned(req), lists, u1, e1) == Post(Returned(req), lists, u2, e2)
    ensures Post(Returned(req), lists, u1, e1) == Response(400, Failure(MissingFieldsMessage, None))
  {
  }

  /** Every response the endpoint sends is ok exactly when it carries a completion. */
  lemma OkIffCompletion(body: Outcome<Request>, lists: SupportLists, upstream: Outcome<ProviderReply>, engineMessage: string)
    ensures IsOk(Post(body, lists, upstream, engineMessage).status)
      <==> Post(body, lists, upstream, engineMessage).body.Completion?
  {
  }

  /** The error text of every failure response is non-empty. */
  lemma FailureMessageNonEmpty(body: Outcome<Request>, lists: SupportLists, upstream: Outcome<ProviderReply>, engineMessage: string)
    requires Post(body, lists, upstream, engineMessage).body.Failure?
    ensures Post(body, lists, upstream, engineMessage).body.error != ""
  {
  }
}
