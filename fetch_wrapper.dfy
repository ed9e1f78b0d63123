/** workbox-core's fetchWrapper.fetch(input, options, plugins): build the
    request, run the requestWillFetch hooks, dispatch once, and on a transport
    failure run the fetchDidFail hooks before rejecting with the transport's
    error. */
module FetchWrapper {
  import opened FetchTypes
  import opened Trace
  import opened RequestWillFetch
  import opened FetchDidFail

  /** The request the call starts from; it stays the "original request". */
  function InitialRequest(input: Input): (r: Request)
    ensures input.UrlString? ==> r.url == input.url
    ensures input.PrebuiltRequest? ==> r == input.request
  {
    match input
    case UrlString(url) => Request(url)
    case PrebuiltRequest(request) => request
  }

  /** The options the transport receives: the caller's bag for a URL string;
      none for a pre-built request, which carries its own. */
  function TransportOptions(input: Input, options: Option<FetchOptions>): (r: Option<FetchOptions>)
    ensures input.UrlString? ==> r == options
    ensures input.PrebuiltRequest? ==> r.None?
  {
    match input
    case UrlString(_) => options
    case PrebuiltRequest(_) => None
  }

  /** One whole call, as a value: what the caller receives and the trace.
      A call makes at most one hook call per plugin in each phase, plus the
      dispatch, and it rejects with a WorkboxError exactly when a
      requestWillFetch hook threw. */
  function FetchSpec(input: Input, options: Option<FetchOptions>, plugins: seq<Plugin>, transport: Transport): (r: Run)
    ensures |r.trace| <= 2 * |plugins| + 1
    ensures r.result.Failed? && r.result.error.WorkboxError?
            <==> WillFetchChain(plugins, InitialRequest(input)).Aborted?
  {
    var original := InitialRequest(input);
    AfterWillFetch(WillFetchChain(plugins, original), original, TransportOptions(input, options), plugins, transport)
  }

  /** The rest of a call once the requestWillFetch phase has ended: the
      trace starts with that phase's hook calls, and the call rejects with a
      WorkboxError exactly when the phase was aborted. */
  function AfterWillFetch(chain: ChainOutcome, original: Request, opts: Option<FetchOptions>,
                          plugins: seq<Plugin>, transport: Transport): (r: Run)
    ensures |chain.calls| <= |r.trace| && r.trace[..|chain.calls|] == chain.calls
    ensures chain.Completed? ==> |r.trace| <= |chain.calls| + |plugins| + 1
    ensures r.result.Failed? && r.result.error.WorkboxError? <==> chain.Aborted?
  {
    match chain
    case Aborted(_, e, calls) => Run(Failed(WorkboxError(PluginErrorRequestWillFetch, e)), calls)
    case Completed(request, calls) =>
      var rest := DispatchPhase(request, original, opts, plugins, transport);
      Run(rest.result, calls + rest.trace)
  }

  /** From the dispatch on: the one transport call, then, only if it fails,
      the fetchDidFail phase before rejecting with the transport's error. */
  function DispatchPhase(request: Request, original: Request, opts: Option<FetchOptions>,
                         plugins: seq<Plugin>, transport: Transport): (r: Run)
    ensures 1 <= |r.trace| <= |plugins| + 1 && r.trace[0] == Dispatched(request, opts)
    ensures r.result.Fetched? <==> transport(request, opts).Responded?
    ensures r.result.Failed? ==> r.result.error == TransportError(transport(request, opts).error)
  {
    var sent := [Dispatched(request, opts)];
    match transport(request, opts)
    case Responded(response) => Run(Fetched(response), sent)
    case Rejected(e) => Run(Failed(TransportError(e)), sent + DidFailCalls(plugins, original, request, e))
  }

  /** The call itself: the requestWillFetch phase, one dispatch, then the
      fetchDidFail hooks one after another, each recorded as it happens. */
  method Fetch(input: Input, options: Option<FetchOptions>, plugins: seq<Plugin>, transport: Transport)
    returns (result: FetchResult, trace: seq<Event>)
    ensures Run(result, trace) == FetchSpec(input, options, plugins, transport)
  {
    var original := InitialRequest(input);
    var opts := TransportOptions(input, options);
    var chain := WillFetchChain(plugins, original);
    if chain.Aborted? {
      return Failed(WorkboxError(PluginErrorRequestWillFetch, chain.error)), chain.calls;
    }
    var request := chain.request;
    trace := chain.calls + [Dispatched(request, opts)];
    var outcome := transport(request, opts);
    if outcome.Responded? {
      return Fetched(outcome.response), trace;
    }
    var error := outcome.error;
    var i := 0;
    while i < |plugins|
      invariant 0 <= i <= |plugins|
      invariant trace == chain.calls + [Dispatched(request, opts)]
                         + DidFailCalls(plugins[..i], original, request, error)
    {
      DidFailCallsOfPrefix(plugins, i, original, request, error);
      if plugins[i].hasFetchDidFail {
        trace := trace + [DidFailCalled(i, original, request, error)];
      }
      i := i + 1;
    }
    assert plugins[..i] == plugins;
    assert trace == chain.calls + ([Dispatched(request, opts)] + DidFailCalls(plugins, original, request, error));
    result := Failed(TransportError(error));
  }

  /** The transport is called exactly once, with the request the
      requestWillFetch phase produced, unless a hook threw, in which case it
      is never called. */
  lemma DispatchedOnceUnlessHookThrew(input: Input, options: Option<FetchOptions>, plugins: seq<Plugin>, transport: Transport)
    ensures var chain := WillFetchChain(plugins, InitialRequest(input));
            var run := FetchSpec(input, options, plugins, transport);
      && Count(run.trace, AnyDispatch) == (if chain.Completed? then 1 else 0)
      && forall k :: 0 <= k < |run.trace| && run.trace[k].Dispatched? ==>
           chain.Completed? && run.trace[k] == Dispatched(chain.request, TransportOptions(input, options))
  {
    var original := InitialRequest(input);
    var chain := WillFetchChain(plugins, original);
    ChainCallsInOrder(plugins, original);
    if chain.Completed? {
      var opts := TransportOptions(input, options);
      DispatchPhaseShape(chain.request, original, opts, plugins, transport);
      SingleDispatch(chain.calls, DispatchPhase(chain.request, original, opts, plugins, transport).trace, |plugins|);
    } else {
      CountZero(chain.calls, AnyDispatch);
    }
  }

  /** A URL string, with no plugin rewriting it, is dispatched exactly once
      as a request for that URL, together with the caller's options exactly
      as given. */
  lemma StringInputDispatchedOnce(url: string, options: Option<FetchOptions>, plugins: seq<Plugin>, transport: Transport)
    requires forall j :: 0 <= j < |plugins| ==> !HasWillFetch(plugins[j])
    ensures var run := FetchSpec(UrlString(url), options, plugins, transport);
      && Count(run.trace, AnyDispatch) == 1
      && forall k :: 0 <= k < |run.trace| && run.trace[k].Dispatched? ==>
           run.trace[k].request.url == url && run.trace[k].options == options
  {
    var original := InitialRequest(UrlString(url));
    assert original == Request(url);
    NoHookKeepsOriginal(plugins, original);
    DispatchedOnceUnlessHookThrew(UrlString(url), options, plugins, transport);
  }

  /** A pre-built request, with no plugin rewriting it, is dispatched exactly
      once, as that very request; the options argument is not used. */
  lemma PrebuiltRequestDispatchedOnce(request: Request, options: Option<FetchOptions>, plugins: seq<Plugin>, transport: Transport)
    requires forall j :: 0 <= j < |plugins| ==> !HasWillFetch(plugins[j])
    ensures var run := FetchSpec(PrebuiltRequest(request), options, plugins, transport);
      && Count(run.trace, AnyDispatch) == 1
      && forall k :: 0 <= k < |run.trace| && run.trace[k].Dispatched? ==>
           run.trace[k] == Dispatched(request, None)
  {
    NoHookKeepsOriginal(plugins, request);
    DispatchedOnceUnlessHookThrew(PrebuiltRequest(request), options, plugins, transport);
  }

  /** With a URL string, the caller's options reach the transport unchanged,
      whatever the plugins did to the request. */
  lemma OptionsForwardedUnchanged(url: string, options: Option<FetchOptions>, plugins: seq<Plugin>, transport: Transport)
    requires WillFetchChain(plugins, Request(url)).Completed?
    ensures var run := FetchSpec(UrlString(url), options, plugins, transport);
      && Count(run.trace, AnyDispatch) == 1
      && forall k :: 0 <= k < |run.trace| && run.trace[k].Dispatched? ==> run.trace[k].options == options
  {
    DispatchedOnceUnlessHookThrew(UrlString(url), options, plugins, transport);
  }

  /** When no hook throws, each plugin's requestWillFetch is called exactly
      once if it has one and never otherwise, and the request dispatched is
      the one the last such plugin returned. That these calls come before the
      single dispatch is `HookCallsBeforeDispatch`. */
  lemma LastRequestWillFetchWins(input: Input, options: Option<FetchOptions>, plugins: seq<Plugin>, transport: Transport, last: nat)
    requires last < |plugins| && HasWillFetch(plugins[last])
    requires forall j :: last < j < |plugins| ==> !HasWillFetch(plugins[j])
    requires WillFetchChain(plugins, InitialRequest(input)).Completed?
    ensures var original := InitialRequest(input);
            var run := FetchSpec(input, options, plugins, transport);
      && (forall i: nat :: Count(run.trace, WillFetchOf(i)) == if i < |plugins| && HasWillFetch(plugins[i]) then 1 else 0)
      && Count(run.trace, AnyDispatch) == 1
      && WillFetchChain(plugins[..last], original).Completed?
      && forall k :: 0 <= k < |run.trace| && run.trace[k].Dispatched? ==>
           plugins[last].requestWillFetch.value(
             WillFetchContext(original, WillFetchChain(plugins[..last], original).request))
           == Returned(run.trace[k].request)
  {
    var original := InitialRequest(input);
    DispatchedOnceUnlessHookThrew(input, options, plugins, transport);
    LastReturnWins(plugins, last, original);
    EachHookCalledOnce(plugins, original);
    forall i: nat
      ensures Count(FetchSpec(input, options, plugins, transport).trace, WillFetchOf(i))
              == Count(WillFetchChain(plugins, original).calls, WillFetchOf(i))
    {
      HookCallsOnlyInPhase(input, options, plugins, transport, i);
    }
  }

  /** Hook calls of requestWillFetch are made in its phase only: a call's
      trace counts exactly the calls the phase made. */
  lemma HookCallsOnlyInPhase(input: Input, options: Option<FetchOptions>, plugins: seq<Plugin>, transport: Transport, i: nat)
    ensures Count(FetchSpec(input, options, plugins, transport).trace, WillFetchOf(i))
            == Count(WillFetchChain(plugins, InitialRequest(input)).calls, WillFetchOf(i))
  {
    var original := InitialRequest(input);
    var chain := WillFetchChain(plugins, original);
    if chain.Completed? {
      var opts := TransportOptions(input, options);
      DispatchPhaseShape(chain.request, original, opts, plugins, transport);
      var tail := DispatchPhase(chain.request, original, opts, plugins, transport).trace;
      assert forall k :: 1 <= k < |tail| ==> tail[k] == tail[1..][k - 1];
      assert forall k :: 0 <= k < |tail| ==> !Matches(tail[k], WillFetchOf(i));
      CountZero(tail, WillFetchOf(i));
      CountAppend(chain.calls, tail, WillFetchOf(i));
    }
  }

  /** Every requestWillFetch call comes before the dispatch, and these calls
      come in list order: they are exactly the calls of the hook phase, at
      the head of the trace. */
  lemma HookCallsBeforeDispatch(input: Input, options: Option<FetchOptions>, plugins: seq<Plugin>, transport: Transport)
    ensures var calls := WillFetchChain(plugins, InitialRequest(input)).calls;
            var trace := FetchSpec(input, options, plugins, transport).trace;
      && (forall a, b :: 0 <= a < |trace| && 0 <= b < |trace| && trace[a].WillFetchCalled? && trace[b].Dispatched? ==>
            a < b)
      && (forall a, b :: 0 <= a < b < |trace| && trace[a].WillFetchCalled? && trace[b].WillFetchCalled? ==>
            trace[a].plugin < trace[b].plugin)
      && (forall a :: 0 <= a < |trace| && trace[a].WillFetchCalled? ==> a < |calls| && trace[a] == calls[a])
  {
    var original := InitialRequest(input);
    var chain := WillFetchChain(plugins, original);
    ChainCallsInOrder(plugins, original);
    if chain.Completed? {
      var opts := TransportOptions(input, options);
      DispatchPhaseShape(chain.request, original, opts, plugins, transport);
      HookCallsAtHead(chain.calls, DispatchPhase(chain.request, original, opts, plugins, transport).trace, |plugins|);
    }
  }

  /** When the transport responds, the call ends with the dispatch: the trace
      is the requestWillFetch calls and the dispatch, and no fetchDidFail hook
      runs. */
  lemma RespondedDispatchNotifiesNoOne(input: Input, options: Option<FetchOptions>, plugins: seq<Plugin>,
                                       transport: Transport, response: Response)
    requires WillFetchChain(plugins, InitialRequest(input)).Completed?
    requires transport(WillFetchChain(plugins, InitialRequest(input)).request, TransportOptions(input, options))
             == Responded(response)
    ensures var chain := WillFetchChain(plugins, InitialRequest(input));
            var run := FetchSpec(input, options, plugins, transport);
      && run.result.Fetched?
      && run.trace == chain.calls + [Dispatched(chain.request, TransportOptions(input, options))]
      && forall i: nat :: Count(run.trace, DidFailOf(i)) == 0
  {
    var original := InitialRequest(input);
    var chain := WillFetchChain(plugins, original);
    ChainCallsInOrder(plugins, original);
    var trace := chain.calls + [Dispatched(chain.request, TransportOptions(input, options))];
    assert forall k :: 0 <= k < |trace| ==> !trace[k].DidFailCalled?;
    forall i: nat ensures Count(trace, DidFailOf(i)) == 0 {
      CountZero(trace, DidFailOf(i));
    }
  }

  /** The dispatch phase dispatches the request it is given, and then
      makes fetchDidFail calls only. */
  lemma DispatchPhaseShape(request: Request, original: Request, opts: Option<FetchOptions>,
                           plugins: seq<Plugin>, transport: Transport)
    ensures var trace := DispatchPhase(request, original, opts, plugins, transport).trace;
      && |trace| >= 1
      && trace[0] == Dispatched(request, opts)
      && OnlyDidFailCalls(trace[1..], |plugins|)
  {
    match transport(request, opts)
    case Responded(_) =>
    case Rejected(e) =>
      var trace := DispatchPhase(request, original, opts, plugins, transport).trace;
      DidFailCallsInOrder(plugins, original, request, e);
      assert trace[1..] == DidFailCalls(plugins, original, request, e);
  }

  /** When the hook of plugin `k` throws `e`, after the hooks before it
      returned, the caller gets a plugin-error-request-will-fetch error whose
      thrownError is `e`; that hook was called once, no later hook ran, the
      transport was never called and no fetchDidFail hook ran. */
  lemma ThrowingHookStopsBeforeDispatch(input: Input, options: Option<FetchOptions>, plugins: seq<Plugin>,
                                        transport: Transport, k: nat, e: Error)
    requires k < |plugins| && HasWillFetch(plugins[k])
    requires WillFetchChain(plugins[..k], InitialRequest(input)).Completed?
    requires plugins[k].requestWillFetch.value(
               WillFetchContext(InitialRequest(input), WillFetchChain(plugins[..k], InitialRequest(input)).request))
             == Threw(e)
    ensures var run := FetchSpec(input, options, plugins, transport);
      && run.result == Failed(WorkboxError("plugin-error-request-will-fetch", e))
      && Count(run.trace, WillFetchOf(k)) == 1
      && (forall j: nat :: j > k ==> Count(run.trace, WillFetchOf(j)) == 0)
      && Count(run.trace, AnyDispatch) == 0
      && forall i: nat :: Count(run.trace, DidFailOf(i)) == 0
  {
    var original := InitialRequest(input);
    AbortedIffHookThrew(plugins, k, e, original);
    EachHookCalledOnce(plugins, original);
    DispatchedOnceUnlessHookThrew(input, options, plugins, transport);
    forall i: nat ensures Count(WillFetchChain(plugins, original).calls, DidFailOf(i)) == 0 {
      CountZero(WillFetchChain(plugins, original).calls, DidFailOf(i));
    }
  }

  /** Unfolds `FetchSpec` for a rejected dispatch, for the lemmas below:
      the result is the transport's error, and the trace is the
      requestWillFetch calls, the dispatch, then the fetchDidFail calls. */
  lemma FailedTrace(input: Input, options: Option<FetchOptions>, plugins: seq<Plugin>, transport: Transport, e: Error)
    requires WillFetchChain(plugins, InitialRequest(input)).Completed?
    requires transport(WillFetchChain(plugins, InitialRequest(input)).request, TransportOptions(input, options))
             == Rejected(e)
    ensures var original := InitialRequest(input);
            var chain := WillFetchChain(plugins, original);
            var run := FetchSpec(input, options, plugins, transport);
      && run.result == Failed(TransportError(e))
      && run.trace == chain.calls + [Dispatched(chain.request, TransportOptions(input, options))]
                      + DidFailCalls(plugins, original, chain.request, e)
  {
  }

  /** When the transport rejects with `e`, every plugin with a fetchDidFail
      hook is called exactly once and the others never, all after the
      dispatch and in list order, so that when one runs the later ones have
      not been called yet; each is told the original request, the request
      actually dispatched and `e`. */
  lemma FailedDispatchNotifiesInOrder(input: Input, options: Option<FetchOptions>, plugins: seq<Plugin>,
                                      transport: Transport, e: Error)
    requires WillFetchChain(plugins, InitialRequest(input)).Completed?
    requires transport(WillFetchChain(plugins, InitialRequest(input)).request, TransportOptions(input, options))
             == Rejected(e)
    ensures var original := InitialRequest(input);
            var sent := WillFetchChain(plugins, original).request;
            var trace := FetchSpec(input, options, plugins, transport).trace;
      && (forall i: nat :: Count(trace, DidFailOf(i)) == if i < |plugins| && plugins[i].hasFetchDidFail then 1 else 0)
      && (forall a :: 0 <= a < |trace| && trace[a].DidFailCalled? ==>
            trace[a] == DidFailCalled(trace[a].plugin, original, sent, e))
      && (forall a, b :: 0 <= a < b < |trace| && trace[b].DidFailCalled? && trace[a].DidFailCalled? ==>
            trace[a].plugin < trace[b].plugin)
      && (forall a, b :: 0 <= a < |trace| && 0 <= b < |trace| && trace[a].Dispatched? && trace[b].DidFailCalled? ==>
            a < b)
      && (forall a, j: nat :: 0 <= a < |trace| && trace[a].DidFailCalled? && j > trace[a].plugin ==>
            Count(trace[..a], DidFailOf(j)) == 0)
  {
    var original := InitialRequest(input);
    var chain := WillFetchChain(plugins, original);
    var sent := chain.request;
    FailedTrace(input, options, plugins, transport, e);
    ChainCallsInOrder(plugins, original);
    NotifiedAfterDispatch(chain.calls, Dispatched(sent, TransportOptions(input, options)), plugins, original, sent, e);
  }

  /** When the transport rejects with `e`, it was called exactly once, with
      the request the requestWillFetch phase produced, and the caller's
      promise rejects with `e` itself. */
  lemma FailedDispatchRethrowsError(input: Input, options: Option<FetchOptions>, plugins: seq<Plugin>,
                                    transport: Transport, e: Error)
    requires WillFetchChain(plugins, InitialRequest(input)).Completed?
    requires transport(WillFetchChain(plugins, InitialRequest(input)).request, TransportOptions(input, options))
             == Rejected(e)
    ensures var sent := WillFetchChain(plugins, InitialRequest(input)).request;
            var run := FetchSpec(input, options, plugins, transport);
      && run.result == Failed(TransportError(e))
      && run.result.error.error.message == e.message
      && Count(run.trace, AnyDispatch) == 1
      && forall k :: 0 <= k < |run.trace| && run.trace[k].Dispatched? ==> run.trace[k].request == sent
  {
    DispatchedOnceUnlessHookThrew(input, options, plugins, transport);
  }

  /** A plugin with neither hook, wherever it stands in the list, changes
      nothing: the caller gets the same result, and the trace is that of the
      list without it, with the plugins after it renumbered. */
  lemma HooklessPluginIsSkipped(input: Input, options: Option<FetchOptions>, a: seq<Plugin>, p: Plugin, b: seq<Plugin>,
                                transport: Transport)
    requires IsHookless(p)
    ensures var with := FetchSpec(input, options, a + [p] + b, transport);
            var without := FetchSpec(input, options, a + b, transport);
      && with.result == without.result
      && with.trace == ShiftAll(without.trace, |a|)
  {
    var original := InitialRequest(input);
    SkipPluginWithoutHook(a, p, b, original);
    var chainWith := WillFetchChain(a + [p] + b, original);
    var chainWithout := WillFetchChain(a + b, original);
    if chainWithout.Completed? {
      var opts := TransportOptions(input, options);
      HooklessDispatchPhase(chainWithout.request, original, opts, a, p, b, transport);
      ShiftAllAppend(chainWithout.calls,
                     DispatchPhase(chainWithout.request, original, opts, a + b, transport).trace, |a|);
    }
  }

  /** The dispatch phase gives the same result with and without a plugin
      that has neither hook, and the same trace up to renumbering. */
  lemma HooklessDispatchPhase(request: Request, original: Request, opts: Option<FetchOptions>,
                              a: seq<Plugin>, p: Plugin, b: seq<Plugin>, transport: Transport)
    requires IsHookless(p)
    ensures var with := DispatchPhase(request, original, opts, a + [p] + b, transport);
            var without := DispatchPhase(request, original, opts, a + b, transport);
      && with.result == without.result
      && with.trace == ShiftAll(without.trace, |a|)
  {
    var d := Dispatched(request, opts);
    match transport(request, opts)
    case Responded(_) =>
      ShiftLeavesDispatch(d, [], |a|);
      assert [d] + [] == [d];
    case Rejected(e) =>
      SkipPluginWithoutDidFail(a, p, b, original, request, e);
      ShiftLeavesDispatch(d, DidFailCalls(a + b, original, request, e), |a|);
  }

  // The scenarios of the fetchWrapper tests, replayed on the model.

  /** Two rewriting plugins with an empty one between them: both hooks run
      once, the second sees what the first returned, and the second's
      request is dispatched. */
  lemma TwoRewritingPluginsScenario()
    ensures var first := Plugin(Some(_ => Returned(Request("/test/requestWillFetch/1"))), false);
            var second := Plugin(Some(_ => Returned(Request("/test/requestWillFetch/2"))), false);
            var empty := Plugin(None, false);
            var responds: Transport := (_, _) => Responded(Response(200, ""));
            var run := FetchSpec(UrlString("/test/requestWillFetch/0"), None, [first, empty, second], responds);
      && run.result.Fetched?
      && run.trace == [WillFetchCalled(0, Request("/test/requestWillFetch/0")),
                       WillFetchCalled(2, Request("/test/requestWillFetch/1")),
                       Dispatched(Request("/test/requestWillFetch/2"), None)]
  {
    var first := Plugin(Some(_ => Returned(Request("/test/requestWillFetch/1"))), false);
    var second := Plugin(Some(_ => Returned(Request("/test/requestWillFetch/2"))), false);
    var empty := Plugin(None, false);
    var plugins := [first, empty, second];
    var original := Request("/test/requestWillFetch/0");
    assert plugins[..0] == [];
    ChainOfPrefix(plugins, 0, original);
    ChainOfPrefix(plugins, 1, original);
    ChainOfPrefix(plugins, 2, original);
    assert plugins[..3] == plugins;
  }

  /** A single plugin whose hook throws: one hook call, no dispatch, and a
      plugin-error-request-will-fetch error carrying the thrown error. */
  lemma ThrowingPluginScenario()
    ensures var thrown := Error("Injected Error from Test.");
            var failing := Plugin(Some(_ => Threw(thrown)), false);
            var responds: Transport := (_, _) => Responded(Response(200, ""));
            var run := FetchSpec(UrlString("/test/requestWillFetch/0"), None, [failing], responds);
      && run.result == Failed(WorkboxError("plugin-error-request-will-fetch", thrown))
      && run.trace == [WillFetchCalled(0, Request("/test/requestWillFetch/0"))]
  {
    // These steps are asserted for proof stability.
    var thrown := Error("Injected Error from Test.");
    var failing := Plugin(Some(_ => Threw(thrown)), false);
    assert [failing][..0] == [];
  }

  /** A failing transport: the first plugin rewrites the request and, like
      the last, observes the failure; the empty plugin in between is skipped,
      the first observer runs before the second, and the caller gets the
      transport's error. */
  lemma FailingTransportScenario()
    ensures var injected := Error("Injected Error.");
            var first := Plugin(Some(_ => Returned(Request("/test/failingRequest/1"))), true);
            var second := Plugin(None, true);
            var empty := Plugin(None, false);
            var rejects: Transport := (_, _) => Rejected(injected);
            var run := FetchSpec(UrlString("/test/failingRequest/0"), None, [first, empty, second], rejects);
      && run.result == Failed(TransportError(injected))
      && run.trace == [WillFetchCalled(0, Request("/test/failingRequest/0")),
                       Dispatched(Request("/test/failingRequest/1"), None),
                       DidFailCalled(0, Request("/test/failingRequest/0"), Request("/test/failingRequest/1"), injected),
                       DidFailCalled(2, Request("/test/failingRequest/0"), Request("/test/failingRequest/1"), injected)]
  {
    var injected := Error("Injected Error.");
    var first := Plugin(Some(_ => Returned(Request("/test/failingRequest/1"))), true);
    var second := Plugin(None, true);
    var empty := Plugin(None, false);
    var plugins := [first, empty, second];
    var original := Request("/test/failingRequest/0");
    var sent := Request("/test/failingRequest/1");
    assert plugins[..0] == [];
    ChainOfPrefix(plugins, 0, original);
    ChainOfPrefix(plugins, 1, original);
    ChainOfPrefix(plugins, 2, original);
    DidFailCallsOfPrefix(plugins, 0, original, sent, injected);
    DidFailCallsOfPrefix(plugins, 1, original, sent, injected);
    DidFailCallsOfPrefix(plugins, 2, original, sent, injected);
    assert plugins[..3] == plugins;
  }
}
