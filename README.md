# A model of the pickllm.com comparison page and its OpenAI forwarding endpoint

pickllm.com sends one prompt to several OpenAI chat models at once and shows
the answers side by side. This project models the two pieces of logic in it:

- **The comparison page** (`Comparison`, from `app/page.tsx`). The class
  `Comparison.Home` holds the per-model state map (`enabled`, `loading`,
  `result`, `startTime` for each of the four models) and the `isRunning` flag.
  Each handler is a method: toggling a model, starting a run, and the three
  ways one model's request can settle (an ok reply, a reply that is not ok, an
  exception). `HandleRun` is a whole run. It starts loading for the enabled
  models, settles each dispatched model once, in the order its `completions`
  argument gives, and then clears `isRunning`. Every method is specified by a
  pure function on the map (`Toggled`, `StartLoading`, `Settle`, `SettleAll`).
  Lemmas about those functions prove the frame of every transition, that
  settles to distinct models commute, and that the completion order does not
  change the final map.
- **The forwarding endpoint** (`ForwardRoute`, from `app/api/openai/route.ts`).
  This part is pure functions: the required-field check, the shaping of the
  provider parameters, the prioritised classification of provider errors into
  user-facing messages, and the success, error and exception responses.
  `ForwardRoute.Post` puts them together. The request body, the provider's
  reply and the two model-support lists are inputs.
- **The two together** (`PageEndpoint`). A request the page sends after its guard
  passes always gets past the endpoint's field check. For every endpoint
  response, the page stores either the completion or the endpoint's own
  message, which is never empty. So the page's "Unknown error occurred"
  fallback never fires for this endpoint.

Inputs to the model, in place of effects: the clock (`clock`, one reading per
dispatched model, in dispatch order, and `endTime` per completion), the
outcome of every `fetch` and `response.json()` (`Outcome`, `Reply`), the
message of a `TypeError` raised by the JavaScript engine (`engineMessage`),
and the support lists imported from the constants module
(`SupportLists`), which is not part of this model.

Where a reader might expect otherwise, the model follows the code:

- Status 429 on its own is not classified as a rate limit. Only the provider
  type `rate_limit_exceeded` is (`ForwardRoute.Status429AloneIsNotRateLimited`).
- Status 401 selects the invalid-key message before every other rule
  (`ForwardRoute.UnauthorizedWins`).
- A model's lifecycle is the pair `loading`/`result`, not a separate state
  enumeration. The code computes no cost, keeps no run summary and has no
  sorted view, so none of these is modelled.

## Model

| member | source | states |
|---|---|---|
| `ForwardRoute.Validate` | app/api/openai/route.ts:8-13 | rejects exactly when prompt, model or apiKey is absent or empty; the rejection is status 400 with the fixed missing-fields message and no details |
| `ForwardRoute.BuildParams` | app/api/openai/route.ts:6-30 | model and a single user message carrying the prompt; `max_completion_tokens` is always set (request value or 1024); `top_p` is present iff the model is in the top-p list and `temperature` iff in the temperature list, with defaults 1.0 and 0.7 |
| `ForwardRoute.ParamsKeys` | app/api/openai/route.ts:14-30 | the JSON key set always holds `max_completion_tokens`; it holds `top_p` and `temperature` exactly for models on the corresponding list |
| `ForwardRoute.UpstreamCall` | app/api/openai/route.ts:6-40 | the provider is called iff the body parsed and passed validation, and then with exactly the shaped params |
| `ForwardRoute.Classify` | app/api/openai/route.ts:50-63 | passthrough status; each message kind chosen iff its rule fires and no earlier rule does: invalid key (type `invalid_api_key` or 401), quota (type or code `insufficient_quota`), model not found, rate limit (type only), unavailable (status >= 500), otherwise passthrough |
| `ForwardRoute.ClassifyFollowsPriority` | app/api/openai/route.ts:52-63 | the if/else chain equals an independent first-matching-rule definition over the rule list in source order |
| `ForwardRoute.UnauthorizedWins` | app/api/openai/route.ts:53-54 | status 401 gives the invalid-key message whatever the type, code or other rules |
| `ForwardRoute.Status429AloneIsNotRateLimited` | app/api/openai/route.ts:59-60 | a 429 whose type is not `rate_limit_exceeded` is not classified as a rate limit |
| `ForwardRoute.ErrorResponse` | app/api/openai/route.ts:44-75 | status is the provider status; `originalMessage` is the unclassified message (default 'OpenAI API error occurred'); `type` defaults to 'unknown_error', `code` to null; `error` is the classified message |
| `ForwardRoute.SuccessResponse` | app/api/openai/route.ts:78-81 | status 200 with the first choice's content and `usage.total_tokens`; a missing first choice or usage becomes the exception response |
| `ForwardRoute.ExceptionResponse` | app/api/openai/route.ts:83-98 | status 500, the fixed connection message, type 'network_error', no code key, and the thrown error's message (or 'Unknown error occurred') |
| `ForwardRoute.Post` | app/api/openai/route.ts:4-100 | the whole handler: a body that fails to parse, a thrown fetch or a thrown `response.json()` each give the exception response; a rejected body gives 400; otherwise ok replies give the success response and others the error response |
| `ForwardRoute.RejectedRequestIgnoresUpstream` | app/api/openai/route.ts:8-13 | a request missing a required field makes no provider call and its 400 response does not depend on anything the provider would have answered |
| `ForwardRoute.OkIffCompletion` | app/api/openai/route.ts:44-98 | every response of the endpoint has a 2xx status exactly when it carries a completion |
| `ForwardRoute.FailureMessageNonEmpty` | app/api/openai/route.ts:46-63 | the `error` text of every failure response is non-empty |
| `Comparison.TrimEmptyIffBlank` | app/page.tsx:96 | `prompt.trim()` is empty exactly when the prompt consists of ECMAScript white space and line terminators only |
| `Comparison.Toggled` | app/page.tsx:88-93 | toggling sets only the model's `enabled`; its `loading`, `result`, `startTime` and every other entry are unchanged |
| `Comparison.Home.ToggleModel` | app/page.tsx:88-93 | the new map is `Toggled` of the old one and `isRunning` is unchanged |
| `Comparison.EnabledAmong` | app/page.tsx:98 | the filter keeps exactly the enabled models, in the order of `ms`, never more than its input, and keeps a duplicate-free list duplicate-free |
| `Comparison.EnabledModels` | app/page.tsx:98 | the snapshot holds exactly the enabled models among the four, in the order of `Models`, without repetition; so the i-th clock reading goes to the i-th enabled model in that order |
| `Comparison.StartLoadingEffect` | app/page.tsx:104-113 | the i-th enabled model becomes loading with no result and the i-th clock reading as start time, keeping its `enabled`; disabled models keep their whole previous entry, old result included |
| `Comparison.Home.constructor` | app/page.tsx:49-62 | every model starts enabled, not loading, with no result and start time 0; `isRunning` is false |
| `Comparison.Home.Run` | app/page.tsx:95-113 | a blank prompt, an empty key or no enabled model dispatches nothing and changes no state, `isRunning` included; otherwise `isRunning` is set, the enabled models are dispatched in order and the map is their loading state |
| `Comparison.ResponseTime` | app/page.tsx:131-132 | elapsed time is non-negative when the end is not before the start |
| `Comparison.SettledResult` | app/page.tsx:134-195 | the result has an error iff the reply is not ok; an ok reply carries `response`/`tokens`; a not-ok reply carries an empty response, 0 tokens and `data.error` or 'Unknown error occurred'; an exception carries the fixed network-error message |
| `Comparison.Settle` | app/page.tsx:134-195 | a settle clears the model's `loading`, stores its result timed from the snapshot's start time, keeps its `enabled`/`startTime` and leaves every other model unchanged |
| `Comparison.SettleReadsOwnStartOnly` | app/page.tsx:131-132 | a settle depends on the snapshot only through its own model's start time |
| `Comparison.SettleCommutes` | app/page.tsx:116-196 | settles of two different models commute |
| `Comparison.SettleAllEffect` | app/page.tsx:116-198 | after settles to distinct models, each settled model holds the entry its own completion gives and every other model is untouched |
| `Comparison.SettleOrderIrrelevant` | app/page.tsx:116-198 | two completion orders of the same settles give the same map |
| `Comparison.TransportFailureIsolation` | app/page.tsx:116-195 | with one success and one thrown request, in either order, the success keeps its response without error and the failure carries the network-error message |
| `Comparison.AllSettledNoneLoading` | app/page.tsx:116-199 | once every dispatched model has settled once, none of them is loading and undispatched models are untouched |
| `Comparison.Home.SettleSuccess` | app/page.tsx:130-147 | the map becomes `Settle` with the ok reply; `isRunning` unchanged |
| `Comparison.Home.SettleNotOk` | app/page.tsx:148-170 | the map becomes `Settle` with the not-ok reply; `isRunning` unchanged |
| `Comparison.Home.SettleException` | app/page.tsx:171-195 | the map becomes `Settle` with the exception; `isRunning` unchanged |
| `Comparison.Home.FinishRun` | app/page.tsx:198-199 | clears `isRunning` and nothing else |
| `Comparison.Home.HandleRun` | app/page.tsx:95-200 | a rejected run changes nothing; otherwise the final map is the settles, in completion order, applied to the loading state, no dispatched model is loading, undispatched models are unchanged and `isRunning` is false |
| `PageEndpoint.PageReply` | app/page.tsx:130-150 | the page reads an ok response as its response and tokens and any other as its `error` field |
| `PageEndpoint.DispatchedRequestPassesValidation` | app/api/openai/route.ts:6-13 | the body the page posts after its guard passes is never rejected, and the provider receives the default token limit and sampling values |
| `PageEndpoint.PageShowsEndpointMessage` | app/page.tsx:148-150 | for every endpoint response the stored result has no error iff the response is a completion, and otherwise the endpoint's own message: the 'Unknown error occurred' fallback never applies |

## Left out

- `app/layout.tsx` (page metadata and markup) and `app/api/model-prices/route.ts` (a fetch of a remote price file, forwarded unchanged) contain no decision logic.
- The `fetch` calls, `response.json()` and `request.json()` are not modelled. Their outcomes, a value or a thrown exception, are inputs.
- `Date.now()` is not modelled. Its readings are inputs: `clock` for the start times and `endTime` for each completion.
- `Promise.all` scheduling is not modelled. The order in which requests complete is the order of `HandleRun`'s `completions`, which must settle each dispatched model exactly once.
- Floating point is left out. `responseTime` is kept in integer milliseconds, without the division by 1000. The parsing of temperature, top-p and max-tokens (`parseFloat`/`parseInt`) is not modelled: the values are opaque `Tunable`s, and only whether a key is present and where its value comes from are modelled.
- Request fields are modelled as absent or as strings. JSON values of other types (numbers, booleans, null, objects) and their truthiness are not modelled.
- The provider's first choice is modelled as its content string. A choice without a `message` is not modelled.
- `ForwardRoute.ProviderData`: the first choice's content is always a string and `usage` is either absent or carries `total_tokens`. A null or non-string content (the endpoint would answer `response: null`) and a `usage` without `total_tokens` (the endpoint's reply then has no `tokens` key, which the page stores as it is, app/page.tsx:142-143) are not modelled.
- API-key persistence in localStorage, the API-key dialog (app/page.tsx:64-86), toast notifications, `console.error`, all JSX rendering and the `LoadingTimer` interval are presentation or I/O.
- Overlapping runs are not modelled. The Run button and the checkboxes are disabled while `isRunning` is set, so neither a second run nor a toggle happens during a run. A stale result arriving from an earlier run is therefore not modelled.
- Comparison.Home.ToggleModel: requires `model` to be one of the four models. The page only toggles those models. For any other key the code would create an entry holding only `enabled`, which the state record cannot represent.
