/**
 * How the page and the forwarding endpoint fit together: the body the page
 * posts for each dispatched model, and how the page reads the endpoint's
 * response when it settles that model.
 */
module PageEndpoint {
  import opened Opt
  import ForwardRoute
  import Comparison

  /** The JSON body the page posts: prompt, model and API key, no sampling values. */
  function PageRequest(prompt: string, model: string, apiKey: string): ForwardRoute.Request
  {
    ForwardRoute.Request(Some(prompt), Some(model), Some(apiKey), None, None, None)
  }

  /** How the page reads an endpoint response: `response.ok` decides, then the
      data's `response`/`tokens` or its `error` field are taken. */
  function PageReply(r: ForwardRoute.Response): (reply: Comparison.Reply)
    requires ForwardRoute.IsOk(r.status) <==> r.body.Completion?
    ensures reply.OkReply? <==> ForwardRoute.IsOk(r.status)
    ensures reply.OkReply? ==> reply.response == r.body.response && reply.tokens == r.body.tokens
    ensures reply.ErrorReply? ==> reply.error == Some(r.body.error)
  {
    match r.body
    case Completion(response, tokens) => Comparison.OkReply(response, tokens)
    case Failure(error, _) => Comparison.ErrorReply(Some(error))
  }

  /** A request the page sends for a run that passed its guard is never rejected
      by the endpoint's required-field check, and the provider receives the
      default sampling values. */
  lemma DispatchedRequestPassesValidation(prompt: string, model: string, apiKey: string, lists: ForwardRoute.SupportLists)
    requires Comparison.Trim(prompt) != "" && apiKey != "" && model in Comparison.Models
    ensures ForwardRoute.Validate(PageRequest(prompt, model, apiKey)).None?
    ensures var p := ForwardRoute.UpstreamCall(ForwardRoute.Returned(PageRequest(prompt, model, apiKey)), lists);
      && p.Some?
      && p.value.maxCompletionTokens == ForwardRoute.DefaultMaxTokens
      && (p.value.topP.Some? ==> p.value.topP.value == ForwardRoute.DefaultTopP)
      && (p.value.temperature.Some? ==> p.value.temperature.value == ForwardRoute.DefaultTemperature)
  {
  }

  /** Whatever the endpoint answers, the page stores a result whose error is
      absent exactly for an ok response and is otherwise the endpoint's own
      message: the page's "Unknown error occurred" fallback never applies. */
  lemma PageShowsEndpointMessage(
    body: ForwardRoute.Outcome<ForwardRoute.Request>, lists: ForwardRoute.SupportLists,
    upstream: ForwardRoute.Outcome<ForwardRoute.ProviderReply>, engineMessage: string,
    model: string, startTime: int, endTime: int)
    ensures var r := ForwardRoute.Post(body, lists, upstream, engineMessage);
      ForwardRoute.IsOk(r.status) <==> r.body.Completion?
    ensures var r := ForwardRoute.Post(body, lists, upstream, engineMessage);
      var result := Comparison.SettledResult(model, PageReply(r), startTime, endTime);
      && (r.body.Completion? ==> result.error.None? && result.response == r.body.response)
      && (r.body.Failure? ==> result.error == Some(r.body.error))
  {
  }
}
