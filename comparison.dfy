/**
 * The comparison page: a per-model state map and an `isRunning` flag. A run
 * snapshots the enabled models, puts each of them into the loading state and
 * then lets every dispatched request settle, in whatever order the requests
 * complete; each settle writes only its own model's entry.
 */
module Comparison {
  import opened Opt

  /** The models offered for comparison, in display order. */
  const Models: seq<string> := ["gpt-4-turbo", "gpt-4o", "gpt-4o-2024-05-13", "gpt-3.5-turbo-0125"]

  const ModelSet: set<string> := set m | m in Models

  /** The result card of one model. `responseTime` is in milliseconds. */
  datatype ModelResult = ModelResult(model: string, response: string, tokens: int, responseTime: int, error: Option<string>)

  datatype ModelState = ModelState(enabled: bool, loading: bool, result: Option<ModelResult>, startTime: int)

  type States = map<string, ModelState>

  /** The entry every model starts with. */
  const Idle := ModelState(true, false, None, 0)

  const UnknownErrorMessage := "Unknown error occurred"
  const NetworkErrorMessage := "Network error - please check your connection"

  predicate Distinct<T(==)>(s: seq<T>)
  {
    forall i, j :: 0 <= i < j < |s| ==> s[i] != s[j]
  }

  // ---------------------------------------------------------------------
  // String.prototype.trim
  // ---------------------------------------------------------------------

  /** ECMAScript WhiteSpace and LineTerminator code points, which `trim` removes. */
  predicate IsJsWhitespace(c: char)
  {
    c == '\t' || c == '\n' || c == '\U{000B}' || c == '\U{000C}' || c == '\r' || c == ' '
    || c == '\U{00A0}' || c == '\U{1680}' || ('\U{2000}' <= c <= '\U{200A}')
    || c == '\U{2028}' || c == '\U{2029}' || c == '\U{202F}' || c == '\U{205F}'
    || c == '\U{3000}' || c == '\U{FEFF}'
  }

  predicate Blank(s: string)
  {
    forall i :: 0 <= i < |s| ==> IsJsWhitespace(s[i])
  }

  function TrimStart(s: string): string
  {
    if s != [] && IsJsWhitespace(s[0]) then TrimStart(s[1..]) else s
  }

  function TrimEnd(s: string): string
  {
    if s != [] && IsJsWhitespace(s[|s| - 1]) then TrimEnd(s[..|s| - 1]) else s
  }

  function Trim(s: string): string
  {
    TrimEnd(TrimStart(s))
  }

  lemma {:induction false} TrimStartEmptyIffBlank(s: string)
    ensures TrimStart(s) == [] <==> Blank(s)
    ensures TrimStart(s) != [] ==> !IsJsWhitespace(TrimStart(s)[0])
  {
    if s != [] && IsJsWhitespace(s[0]) {
      TrimStartEmptyIffBlank(s[1..]);
      assert forall i :: 1 <= i < |s| ==> s[i] == s[1..][i - 1];
    }
  }

  lemma {:induction false} TrimEndKeepsFirst(s: string)
    requires s != [] && !IsJsWhitespace(s[0])
    ensures TrimEnd(s) != [] && TrimEnd(s)[0] == s[0]
  {
    if IsJsWhitespace(s[|s| - 1]) {
      TrimEndKeepsFirst(s[..|s| - 1]);
    }
  }

  /** `prompt.trim()` is falsy exactly when the prompt is made of white space only. */
  lemma TrimEmptyIffBlank(s: string)
    ensures Trim(s) == [] <==> Blank(s)
  {
    TrimStartEmptyIffBlank(s);
    if TrimStart(s) != [] {
      TrimEndKeepsFirst(TrimStart(s));
    }
  }

  // ---------------------------------------------------------------------
  // Toggling
  // ---------------------------------------------------------------------

  /** The map after `handleToggleModel(model, enabled)`. */
  function Toggled(states: States, model: string, enabled: bool): (r: States)
    requires model in states
    ensures r.Keys == states.Keys
    ensures r[model].enabled == enabled
    ensures r[model].loading == states[model].loading && r[model].result == states[model].result
      && r[model].startTime == states[model].startTime
    ensures forall m :: m in states && m != model ==> r[m] == states[m]
  {
    states[model := states[model].(enabled := enabled)]
  }

  // ---------------------------------------------------------------------
  // Starting a run
  // ---------------------------------------------------------------------

  /** The position of the first occurrence of `m` in `ms`. */
  function IndexIn(ms: seq<string>, m: string): (i: nat)
    requires m in ms
    ensures i < |ms| && ms[i] == m
  {
    if ms[0] == m then 0 else 1 + IndexIn(ms[1..], m)
  }

  /** `ms.filter(m => states[m].enabled)`: the enabled models of `ms`, in the order of `ms`. */
  function EnabledAmong(ms: seq<string>, states: States): (r: seq<string>)
    requires forall m :: m in ms ==> m in states
    ensures forall m :: m in r <==> m in ms && states[m].enabled
    ensures Distinct(ms) ==> Distinct(r)
    ensures Distinct(ms) ==> forall i, j :: 0 <= i < j < |r| ==> IndexIn(ms, r[i]) < IndexIn(ms, r[j])
    ensures |r| <= |ms|
  {
    if ms == [] then []
    else
      var rest := EnabledAmong(ms[1..], states);
      assert Distinct(ms) ==> ms[0] !in ms[1..];
      assert forall m :: m in ms[1..] && m != ms[0] ==> IndexIn(ms, m) == 1 + IndexIn(ms[1..], m);
      if states[ms[0]].enabled then [ms[0]] + rest else rest
  }

  /** The snapshot of the enabled models, in the order of `Models`. */
  function EnabledModels(states: States): (r: seq<string>)
    requires ModelSet <= states.Keys
    ensures forall m :: m in r <==> m in Models && states[m].enabled
    ensures Distinct(r) && |r| <= |Models|
    ensures forall i, j :: 0 <= i < j < |r| ==> IndexIn(Models, r[i]) < IndexIn(Models, r[j])
  {
    assert Distinct(Models);
    EnabledAmong(Models, states)
  }

  /** The guard of `handleRun`: a non-blank prompt, an API key and an enabled model. */
  predicate RunAllowed(prompt: string, apiKey: string, states: States)
    requires ModelSet <= states.Keys
  {
    Trim(prompt) != "" && apiKey != "" && EnabledModels(states) != []
  }

  /** The entry of a model a run dispatches, given the clock reading taken for it. */
  function Loading(s: ModelState, now: int): ModelState
  {
    s.(loading := true, result := None, startTime := now)
  }

  /** The `newStates` map built by the `forEach` over the enabled models; the
      `i`-th model gets the `i`-th clock reading. */
  function StartLoading(states: States, ms: seq<string>, clock: seq<int>): (r: States)
    requires forall m :: m in ms ==> m in states
    requires |clock| >= |ms|
    ensures r.Keys == states.Keys
    decreases |ms|
  {
    if ms == [] then states
    else StartLoading(states[ms[0] := Loading(states[ms[0]], clock[0])], ms[1..], clock[1..])
  }

  /** Every dispatched model is loading with its own start time and no result;
      every other model keeps its previous entry, including an old result. */
  lemma {:induction false} StartLoadingEffect(states: States, ms: seq<string>, clock: seq<int>)
    requires forall m :: m in ms ==> m in states
    requires |clock| >= |ms| && Distinct(ms)
    ensures forall j :: 0 <= j < |ms| ==> StartLoading(states, ms, clock)[ms[j]] == Loading(states[ms[j]], clock[j])
    ensures forall m :: m in states && m !in ms ==> StartLoading(states, ms, clock)[m] == states[m]
  {
    if ms != [] {
      var next := states[ms[0] := Loading(states[ms[0]], clock[0])];
      assert forall m :: m in ms[1..] ==> m in ms;
      assert Distinct(ms[1..]) by {
        forall i, j | 0 <= i < j < |ms[1..]| ensures ms[1..][i] != ms[1..][j] {
          assert ms[1..][i] == ms[i + 1] && ms[1..][j] == ms[j + 1];
        }
      }
      StartLoadingEffect(next, ms[1..], clock[1..]);
      assert ms[0] !in ms[1..] by {
        forall j | 0 <= j < |ms[1..]| ensures ms[1..][j] != ms[0] {
          assert ms[1..][j] == ms[j + 1];
        }
      }
      forall j | 1 <= j < |ms|
        ensures StartLoading(states, ms, clock)[ms[j]] == Loading(states[ms[j]], clock[j])
      {
        assert ms[1..][j - 1] == ms[j] && clock[1..][j - 1] == clock[j];
      }
    }
  }

  // ---------------------------------------------------------------------
  // Settling a request
  // ---------------------------------------------------------------------

  /** What the page learnt from one request to the forwarding endpoint: an ok
      reply with its data, a reply that is not ok with the `error` field of its
      data, or an exception from `fetch` or from `response.json()`. */
  datatype Reply = OkReply(response: string, tokens: int) | ErrorReply(error: Option<string>) | Exception

  datatype Settlement = Settlement(model: string, reply: Reply, endTime: int)

  /** Elapsed milliseconds between the start time of the run's snapshot and the end. */
  function ResponseTime(startTime: int, endTime: int): (t: int)
    ensures startTime <= endTime ==> t >= 0
  {
    endTime - startTime
  }

  /** The result record a settle stores. */
  function SettledResult(model: string, reply: Reply, startTime: int, endTime: int): (r: ModelResult)
    ensures r.model == model && r.responseTime == ResponseTime(startTime, endTime)
    ensures r.error.None? <==> reply.OkReply?
    ensures reply.OkReply? ==> r.response == reply.response && r.tokens == reply.tokens
    ensures !reply.OkReply? ==> r.response == "" && r.tokens == 0 && r.error.value != ""
    ensures reply.ErrorReply? ==>
      r.error.value == (if Truthy(reply.error) then reply.error.value else UnknownErrorMessage)
    ensures reply.Exception? ==> r.error.value == NetworkErrorMessage
  {
    var responseTime := ResponseTime(startTime, endTime);
    match reply
    case OkReply(response, tokens) => ModelResult(model, response, tokens, responseTime, None)
    case ErrorReply(error) => ModelResult(model, "", 0, responseTime, Some(OrElse(error, UnknownErrorMessage)))
    case Exception => ModelResult(model, "", 0, responseTime, Some(NetworkErrorMessage))
  }

  /** The map after one settle of `model`; the start time comes from `snapshot`. */
  function Settle(states: States, snapshot: States, c: Settlement): (r: States)
    requires c.model in states && c.model in snapshot
    ensures r.Keys == states.Keys
    ensures forall m :: m in states && m != c.model ==> r[m] == states[m]
    ensures r[c.model].enabled == states[c.model].enabled && r[c.model].startTime == states[c.model].startTime
    ensures !r[c.model].loading
    ensures r[c.model].result == Some(SettledResult(c.model, c.reply, snapshot[c.model].startTime, c.endTime))
  {
    states[c.model := Settled(states[c.model], snapshot, c)]
  }

  function Settled(s: ModelState, snapshot: States, c: Settlement): ModelState
    requires c.model in snapshot
  {
    s.(loading := false, result := Some(SettledResult(c.model, c.reply, snapshot[c.model].startTime, c.endTime)))
  }

  /** A settle reads nothing of the snapshot but its own model's start time. */
  lemma SettleReadsOwnStartOnly(states: States, snap1: States, snap2: States, c: Settlement)
    requires c.model in states && c.model in snap1 && c.model in snap2
    requires snap1[c.model].startTime == snap2[c.model].startTime
    ensures Settle(states, snap1, c) == Settle(states, snap2, c)
  {
  }

  /** Settles of two different models commute. */
  lemma SettleCommutes(states: States, snapshot: States, c1: Settlement, c2: Settlement)
    requires c1.model in states && c1.model in snapshot && c2.model in states && c2.model in snapshot
    requires c1.model != c2.model
    ensures Settle(Settle(states, snapshot, c1), snapshot, c2) == Settle(Settle(states, snapshot, c2), snapshot, c1)
  {
  }

  function ModelsOf(cs: seq<Settlement>): (ms: seq<string>)
    ensures |ms| == |cs| && forall i :: 0 <= i < |cs| ==> ms[i] == cs[i].model
  {
    seq(|cs|, i requires 0 <= i < |cs| => cs[i].model)
  }

  /** The settles in the order the requests completed. */
  function SettleAll(states: States, snapshot: States, cs: seq<Settlement>): (r: States)
    requires forall m :: m in ModelsOf(cs) ==> m in states && m in snapshot
    ensures r.Keys == states.Keys
    decreases |cs|
  {
    if cs == [] then states
    else
      assert forall m :: m in ModelsOf(cs[1..]) ==> m in ModelsOf(cs);
      SettleAll(Settle(states, snapshot, cs[0]), snapshot, cs[1..])
  }

  /** Each dispatched model completes exactly once, in some order. */
  predicate SettlesEachOnce(cs: seq<Settlement>, dispatched: seq<string>)
  {
    && Distinct(ModelsOf(cs))
    && (forall m :: m in ModelsOf(cs) ==> m in dispatched)
    && (forall m :: m in dispatched ==> m in ModelsOf(cs))
  }

  /** After a sequence of settles to distinct models, each settled model holds
      the entry its own completion gives it and every other model is untouched. */
  lemma {:induction false} SettleAllEffect(states: States, snapshot: States, cs: seq<Settlement>)
    requires forall m :: m in ModelsOf(cs) ==> m in states && m in snapshot
    requires Distinct(ModelsOf(cs))
    ensures forall i :: 0 <= i < |cs| ==>
      SettleAll(states, snapshot, cs)[cs[i].model] == Settled(states[cs[i].model], snapshot, cs[i])
    ensures forall m :: m in states && m !in ModelsOf(cs) ==> SettleAll(states, snapshot, cs)[m] == states[m]
  {
    if cs != [] {
      var tail := cs[1..];
      assert forall m :: m in ModelsOf(tail) ==> m in ModelsOf(cs);
      assert Distinct(ModelsOf(tail)) by {
        forall i, j | 0 <= i < j < |tail| ensures tail[i].model != tail[j].model {
          assert tail[i] == cs[i + 1] && tail[j] == cs[j + 1];
        }
      }
      var next := Settle(states, snapshot, cs[0]);
      SettleAllEffect(next, snapshot, tail);
      assert cs[0].model !in ModelsOf(tail) by {
        forall j | 0 <= j < |tail| ensures tail[j].model != cs[0].model {
          assert tail[j] == cs[j + 1];
        }
      }
      forall i | 1 <= i < |cs|
        ensures SettleAll(states, snapshot, cs)[cs[i].model] == Settled(states[cs[i].model], snapshot, cs[i])
      {
        assert tail[i - 1] == cs[i];
      }
    }
  }

  lemma ModelsOfSubset(cs1: seq<Settlement>, cs2: seq<Settlement>)
    requires forall c :: c in cs2 ==> c in cs1
    ensures forall m :: m in ModelsOf(cs2) ==> m in ModelsOf(cs1)
  {
    forall m | m in ModelsOf(cs2) ensures m in ModelsOf(cs1) {
      var j :| 0 <= j < |cs2| && ModelsOf(cs2)[j] == m;
      assert cs2[j] in cs2;
      var i :| 0 <= i < |cs1| && cs1[i] == cs2[j];
      assert ModelsOf(cs1)[i] == m;
    }
  }

  /** The completion order does not matter: two orders of the same settles to
      distinct models give the same map. */
  lemma SettleOrderIrrelevant(states: States, snapshot: States, cs1: seq<Settlement>, cs2: seq<Settlement>)
    requires forall m :: m in ModelsOf(cs1) ==> m in states && m in snapshot
    requires forall m :: m in ModelsOf(cs2) ==> m in states && m in snapshot
    requires Distinct(ModelsOf(cs1)) && Distinct(ModelsOf(cs2))
    requires forall c :: c in cs1 <==> c in cs2
    ensures SettleAll(states, snapshot, cs1) == SettleAll(states, snapshot, cs2)
  {
    ModelsOfSubset(cs1, cs2);
    SettleAllEffect(states, snapshot, cs1);
    SettleAllEffect(states, snapshot, cs2);
    var r1, r2 := SettleAll(states, snapshot, cs1), SettleAll(states, snapshot, cs2);
    forall m | m in states ensures r1[m] == r2[m] {
      if m in ModelsOf(cs1) {
        var i :| 0 <= i < |cs1| && cs1[i].model == m;
        assert cs1[i] in cs1;
        var j :| 0 <= j < |cs2| && cs2[j] == cs1[i];
        assert r1[m] == Settled(states[m], snapshot, cs1[i]);
        assert r2[m] == Settled(states[m], snapshot, cs2[j]);
      }
    }
  }

  /** One request succeeds and another's `fetch` throws: whichever settles first,
      the success keeps its response and the failure carries the network-error
      message, each in its own slot. */
  lemma TransportFailureIsolation(states: States, snapshot: States, ok: Settlement, failed: Settlement)
    requires ok.model in states && ok.model in snapshot && failed.model in states && failed.model in snapshot
    requires ok.model != failed.model && ok.reply.OkReply? && failed.reply == Exception
    ensures SettleAll(states, snapshot, [ok, failed]) == SettleAll(states, snapshot, [failed, ok])
    ensures var r := SettleAll(states, snapshot, [failed, ok]);
      && r[ok.model].result.Some? && r[failed.model].result.Some?
      && r[ok.model].result.value.error.None? && r[ok.model].result.value.response == ok.reply.response
      && r[failed.model].result.value.error == Some(NetworkErrorMessage)
  {
    var cs1, cs2 := [ok, failed], [failed, ok];
    assert ModelsOf(cs1) == [ok.model, failed.model] && ModelsOf(cs2) == [failed.model, ok.model];
    SettleOrderIrrelevant(states, snapshot, cs1, cs2);
    SettleAllEffect(states, snapshot, cs2);
    assert cs2[1] == ok && cs2[0] == failed;
  }

  /** Once every dispatched model has settled, none of them is loading. */
  lemma AllSettledNoneLoading(states: States, snapshot: States, cs: seq<Settlement>, dispatched: seq<string>)
    requires forall m :: m in ModelsOf(cs) ==> m in states && m in snapshot
    requires SettlesEachOnce(cs, dispatched)
    ensures forall m :: m in dispatched ==> m in states && !SettleAll(states, snapshot, cs)[m].loading
    ensures forall m :: m in states && m !in dispatched ==> SettleAll(states, snapshot, cs)[m] == states[m]
  {
    SettleAllEffect(states, snapshot, cs);
    forall m | m in dispatched ensures m in states && !SettleAll(states, snapshot, cs)[m].loading {
      var i :| 0 <= i < |cs| && ModelsOf(cs)[i] == m;
    }
  }

  // ---------------------------------------------------------------------
  // The page
  // ---------------------------------------------------------------------

  class Home {
    var modelStates: States
    var isRunning: bool

    ghost predicate Valid()
      reads this
    {
      modelStates.Keys == ModelSet
    }

    /** The initial state: every model enabled, idle, without result and with start time 0. */
    constructor ()
      ensures Valid() && !isRunning
      ensures forall m :: m in Models ==> modelStates[m] == Idle
    {
      var initialStates: States := map[];
      for i := 0 to |Models|
        invariant initialStates.Keys == set j | 0 <= j < i :: Models[j]
        invariant forall m :: m in initialStates ==> initialStates[m] == Idle
      {
        initialStates := initialStates[Models[i] := Idle];
      }
      modelStates := initialStates;
      isRunning := false;
    }

    /** `handleToggleModel`: only the `enabled` flag of `model` changes. */
    method ToggleModel(model: string, enabled: bool)
      requires Valid() && model in modelStates
      modifies this
      ensures Valid() && isRunning == old(isRunning)
      ensures modelStates == Toggled(old(modelStates), model, enabled)
    {
      modelStates := modelStates[model := modelStates[model].(enabled := enabled)];
    }

    /** The synchronous start of `handleRun`: the guard, the snapshot of enabled
        models and the switch of those models to loading. `clock` holds the
        successive readings of the clock. A rejected run changes nothing. */
    method Run(prompt: string, apiKey: string, clock: seq<int>) returns (dispatched: seq<string>, snapshot: States)
      requires Valid() && |clock| >= |Models|
      modifies this
      ensures Valid()
      ensures dispatched == if RunAllowed(prompt, apiKey, old(modelStates)) then EnabledModels(old(modelStates)) else []
      ensures dispatched == [] ==> modelStates == old(modelStates) && isRunning == old(isRunning)
      ensures dispatched != [] ==>
        isRunning && snapshot == modelStates && modelStates == StartLoading(old(modelStates), dispatched, clock)
      ensures forall j :: 0 <= j < |dispatched| ==>
        modelStates[dispatched[j]] == Loading(old(modelStates)[dispatched[j]], clock[j])
      ensures forall m :: m in old(modelStates) && m !in dispatched ==> modelStates[m] == old(modelStates)[m]
    {
      if Trim(prompt) == "" || apiKey == "" {
        return [], modelStates;
      }
      var enabledModels := EnabledModels(modelStates);
      if |enabledModels| == 0 {
        return [], modelStates;
      }
      isRunning := true;
      var newStates := modelStates;
      for i := 0 to |enabledModels|
        invariant newStates.Keys == modelStates.Keys
        invariant StartLoading(newStates, enabledModels[i..], clock[i..])
          == StartLoading(modelStates, enabledModels, clock)
      {
        assert enabledModels[i..][1..] == enabledModels[i + 1..];
        newStates := newStates[enabledModels[i] := Loading(newStates[enabledModels[i]], clock[i])];
      }
      StartLoadingEffect(modelStates, enabledModels, clock);
      modelStates := newStates;
      return enabledModels, newStates;
    }

    /** The settle of an ok reply carrying `response` and `tokens`. */
    method SettleSuccess(model: string, snapshot: States, endTime: int, response: string, tokens: int)
      requires Valid() && model in modelStates && model in snapshot
      modifies this
      ensures Valid() && isRunning == old(isRunning)
      ensures modelStates == Settle(old(modelStates), snapshot, Settlement(model, OkReply(response, tokens), endTime))
    {
      var responseTime := endTime - snapshot[model].startTime;
      var result := ModelResult(model, response, tokens, responseTime, None);
      modelStates := modelStates[model := modelStates[model].(loading := false, result := Some(result))];
    }

    /** The settle of a reply that is not ok; `error` is the `error` field of its data. */
    method SettleNotOk(model: string, snapshot: States, endTime: int, error: Option<string>)
      requires Valid() && model in modelStates && model in snapshot
      modifies this
      ensures Valid() && isRunning == old(isRunning)
      ensures modelStates == Settle(old(modelStates), snapshot, Settlement(model, ErrorReply(error), endTime))
    {
      var responseTime := endTime - snapshot[model].startTime;
      var errorMessage := if Truthy(error) then error.value else UnknownErrorMessage;
      var result := ModelResult(model, "", 0, responseTime, Some(errorMessage));
      modelStates := modelStates[model := modelStates[model].(loading := false, result := Some(result))];
    }

    /** The settle of a request whose `fetch` or `response.json()` threw. */
    method SettleException(model: string, snapshot: States, endTime: int)
      requires Valid() && model in modelStates && model in snapshot
      modifies this
      ensures Valid() && isRunning == old(isRunning)
      ensures modelStates == Settle(old(modelStates), snapshot, Settlement(model, Exception, endTime))
    {
      var responseTime := endTime - snapshot[model].startTime;
      var result := ModelResult(model, "", 0, responseTime, Some(NetworkErrorMessage));
      modelStates := modelStates[model := modelStates[model].(loading := false, result := Some(result))];
    }

    /** `setIsRunning(false)` once every request has settled. */
    method FinishRun()
      modifies this
      ensures !isRunning && modelStates == old(modelStates)
    {
      isRunning := false;
    }

    /** A whole `handleRun`: the start, then one settle per dispatched model in
        the order given by `completions`, then the end of the run. */
    method HandleRun(prompt: string, apiKey: string, clock: seq<int>, completions: seq<Settlement>)
      returns (dispatched: seq<string>)
      requires Valid() && |clock| >= |Models|
      requires SettlesEachOnce(completions,
        if RunAllowed(prompt, apiKey, modelStates) then EnabledModels(modelStates) else [])
      modifies this
      ensures Valid()
      ensures dispatched == if RunAllowed(prompt, apiKey, old(modelStates)) then EnabledModels(old(modelStates)) else []
      ensures dispatched == [] ==> modelStates == old(modelStates) && isRunning == old(isRunning)
      ensures dispatched != [] ==> !isRunning
      ensures dispatched != [] ==> var started := StartLoading(old(modelStates), dispatched, clock);
        modelStates == SettleAll(started, started, completions)
      ensures forall m :: m in dispatched ==> !modelStates[m].loading
      ensures forall m :: m in old(modelStates) && m !in dispatched ==> modelStates[m] == old(modelStates)[m]
    {
      var snapshot;
      dispatched, snapshot := Run(prompt, apiKey, clock);
      if dispatched == [] {
        return;
      }
      assert forall m :: m in ModelsOf(completions) ==> m in modelStates;
      for i := 0 to |completions|
        invariant Valid() && isRunning
        invariant SettleAll(modelStates, snapshot, completions[i..]) == SettleAll(snapshot, snapshot, completions)
      {
        var c := completions[i];
        assert c.model in ModelsOf(completions);
        assert completions[i..][1..] == completions[i + 1..];
        match c.reply
        case OkReply(response, tokens) => SettleSuccess(c.model, snapshot, c.endTime, response, tokens);
        case ErrorReply(error) => SettleNotOk(c.model, snapshot, c.endTime, error);
        case Exception => SettleException(c.model, snapshot, c.endTime);
      }
      FinishRun();
      AllSettledNoneLoading(snapshot, snapshot, completions, dispatched);
    }
  }
}
