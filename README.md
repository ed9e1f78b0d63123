# workbox-core fetchWrapper, modelled in Dafny

This project models `fetchWrapper.fetch(input, options, plugins)` from
workbox-core. Higher-level caching strategies use this function to fetch from
the network while plugins take part. One call runs in this order:

1. It builds the request from a URL string or takes a pre-built request. That
   request stays the *original request* for the whole call.
2. It threads a *current request* through the `requestWillFetch` hooks of the
   plugins, in list order. Plugins without the hook are skipped.
3. If a hook throws, the call stops before any dispatch. It rejects with a
   WorkboxError of kind `plugin-error-request-will-fetch`, whose
   `details.thrownError` is the thrown error.
4. Otherwise it dispatches the current request to the network transport once.
   When the input is a URL string, the caller's options go with it.
5. If the transport fails, the `fetchDidFail` hook of every plugin that has one
   runs in list order. Each hook gets `{originalRequest, request, error}`. The
   call then rejects with the transport's own error.

The implementation file, `packages/workbox-core/_private/fetchWrapper.mjs`, is
not part of this model. The behaviour modelled is what its test file
`test/workbox-core/node/_private/test-fetchWrapper.mjs` pins down, completed by
the design where the tests are silent. The places where
the design fills a gap are listed under "Left out".

## Layout

- `fetch_types.dfy` (module `FetchTypes`) holds the data model:
  - a request, the options bag and the input;
  - plugins, with an optional `requestWillFetch` hook that returns or throws,
    and a flag for `fetchDidFail`;
  - the transport, given as a function parameter;
  - the caller's result;
  - the events a call makes observable: `WillFetchCalled`, `Dispatched` and
    `DidFailCalled`.
- `trace.dfy` (module `Trace`) reads a trace the way the tests read their
  stubs and spies. `Count` gives a `callCount`. `ShiftAll` renumbers events
  when a plugin is inserted into the list.
- `will_fetch.dfy` (module `RequestWillFetch`) defines the `requestWillFetch`
  phase as a pure left fold, `WillFetchChain`. Its lemmas cover call counts,
  order, the request that wins, and short-circuiting.
- `did_fail.dfy` (module `FetchDidFail`) lists the calls of the `fetchDidFail`
  phase, `DidFailCalls`, and proves their count and order.
- `fetch_wrapper.dfy` (module `FetchWrapper`) has these parts:
  - `FetchSpec`, the whole call as a value;
  - `Fetch`, the call as a method that dispatches and then runs the
    `fetchDidFail` loop, appending to the trace as it goes, and is proved
    equal to `FetchSpec`;
  - one lemma per tested property;
  - three lemmas that replay the tests' scenarios on concrete values.

## Model

| member | source | states |
|---|---|---|
| FetchWrapper.InitialRequest | test/workbox-core/node/_private/test-fetchWrapper.mjs:22-40 | A URL string becomes a request for that URL; a pre-built request is used as it is. This is the original request of the call. |
| FetchWrapper.TransportOptions | test/workbox-core/node/_private/test-fetchWrapper.mjs:42-59 | The transport receives the caller's options exactly when the input is a URL string; for a pre-built request it receives none. |
| FetchWrapper.FetchSpec | test/workbox-core/node/_private/test-fetchWrapper.mjs:22-163 | With n plugins, the trace of one whole call holds at most 2n + 1 events. It rejects with a WorkboxError exactly when the hook phase was aborted. The per-plugin counts are proved by `DispatchedOnceUnlessHookThrew`, `LastRequestWillFetchWins` and `FailedDispatchNotifiesInOrder`. |
| FetchWrapper.AfterWillFetch | test/workbox-core/node/_private/test-fetchWrapper.mjs:94-163 | The trace of a call begins with the hook phase's calls. After a completed phase, at most n + 1 further events follow them, for n plugins. The call rejects with a WorkboxError exactly when the phase was aborted. |
| FetchWrapper.DispatchPhase | test/workbox-core/node/_private/test-fetchWrapper.mjs:116-163 | From the dispatch on, the trace starts with the one dispatch of the given request and options. The call succeeds exactly when the transport responds, and otherwise fails with the transport's own error. |
| RequestWillFetch.Step | test/workbox-core/node/_private/test-fetchWrapper.mjs:61-114 | Once the phase has been aborted, a further plugin changes nothing. Otherwise a plugin adds at most one hook call and keeps the calls made before it. |
| RequestWillFetch.WillFetchChain | test/workbox-core/node/_private/test-fetchWrapper.mjs:61-114 | The hook phase makes at most as many calls in total as there are plugins, and an aborted phase stops at a listed plugin. The per-plugin counts are proved by `ChainCallCount`. |
| FetchDidFail.DidFailCalls | test/workbox-core/node/_private/test-fetchWrapper.mjs:116-163 | The fetchDidFail phase makes at most as many calls in total as there are plugins. The per-plugin counts are proved by `DidFailCalledOnce`. |
| FetchWrapper.Fetch | test/workbox-core/node/_private/test-fetchWrapper.mjs:22-163 | The method that builds the request, runs the hook phase, dispatches once and runs the fetchDidFail loop returns exactly the result and trace of `FetchSpec`. |
| FetchWrapper.DispatchedOnceUnlessHookThrew | test/workbox-core/node/_private/test-fetchWrapper.mjs:27 | The transport is called exactly once, with the request the hook phase produced and the forwarded options, when no hook threw; it is called zero times when one did. |
| FetchWrapper.StringInputDispatchedOnce | test/workbox-core/node/_private/test-fetchWrapper.mjs:22-30 | With a URL string and no rewriting plugin there is exactly one dispatch, and its request's URL is the input string. |
| FetchWrapper.PrebuiltRequestDispatchedOnce | test/workbox-core/node/_private/test-fetchWrapper.mjs:32-40 | With a pre-built request and no rewriting plugin there is exactly one dispatch, and it is of that very request. |
| FetchWrapper.OptionsForwardedUnchanged | test/workbox-core/node/_private/test-fetchWrapper.mjs:42-59 | With a URL string and a hook phase that completes, the one dispatch receives the caller's options unchanged, field for field. |
| FetchWrapper.LastRequestWillFetchWins | test/workbox-core/node/_private/test-fetchWrapper.mjs:61-92 | When no hook throws, each plugin with `requestWillFetch` is called exactly once and the others are never called. The transport is called once, and the dispatched request is what the last plugin with the hook returned, so earlier returns are overridden. |
| FetchWrapper.HookCallsBeforeDispatch | test/workbox-core/node/_private/test-fetchWrapper.mjs:78-91 | In a whole call's trace every requestWillFetch call comes before the dispatch. These calls come in list order and are exactly the hook phase's calls, at the head of the trace. |
| FetchWrapper.RespondedDispatchNotifiesNoOne | test/workbox-core/node/_private/test-fetchWrapper.mjs:22-59 | When the transport responds, the call succeeds and its trace is the hook calls followed by the one dispatch: no fetchDidFail hook runs. |
| FetchDidFail.NotifiedAfterDispatch | test/workbox-core/node/_private/test-fetchWrapper.mjs:116-142 | After hook calls and one dispatch, each plugin with fetchDidFail is called exactly once and the others never. Each call gets the original request, the dispatched request and the error. The calls come after the dispatch and in list order, and when one runs no later plugin has been called. |
| FetchDidFail.AppendPluginWithoutDidFail | test/workbox-core/node/_private/test-fetchWrapper.mjs:145-151 | Appending a plugin without fetchDidFail adds no call and renumbers nothing. |
| FetchWrapper.HookCallsOnlyInPhase | test/workbox-core/node/_private/test-fetchWrapper.mjs:86-87 | A call's trace holds exactly the `requestWillFetch` calls that the hook phase made; none happen after it. |
| RequestWillFetch.EachHookCalledOnce | test/workbox-core/node/_private/test-fetchWrapper.mjs:61-92 | The hook phase calls only listed plugins' hooks, in list order. Each plugin with the hook is called once and the others never. If a hook throws, no later plugin is called. |
| RequestWillFetch.ChainCallsInOrder | test/workbox-core/node/_private/test-fetchWrapper.mjs:78-84 | Calls of the hook phase belong to listed plugins, come in list order, and a hook that threw belongs to a plugin that has one. |
| RequestWillFetch.ChainCallCount | test/workbox-core/node/_private/test-fetchWrapper.mjs:86-87 | The hook of plugin `i` is called once if the plugin has one and the phase reached it, and never otherwise. |
| RequestWillFetch.LastReturnWins | test/workbox-core/node/_private/test-fetchWrapper.mjs:61-92 | When the phase completes, its request is what the last plugin with the hook returned, given the request the earlier hooks left. |
| RequestWillFetch.NoHookKeepsOriginal | test/workbox-core/node/_private/test-fetchWrapper.mjs:22-40 | With no plugin that has the hook, no hook is called and the original request is the one dispatched. |
| RequestWillFetch.HooklessSuffix | test/workbox-core/node/_private/test-fetchWrapper.mjs:78-84 | Plugins without the hook at the end of the list do not change the phase's outcome. |
| RequestWillFetch.AbortIsFinal | test/workbox-core/node/_private/test-fetchWrapper.mjs:94-114 | Once a hook has thrown, the plugins after it change nothing: no further hook runs. |
| RequestWillFetch.AbortedAt | test/workbox-core/node/_private/test-fetchWrapper.mjs:94-114 | If the phase stopped at plugin `k`, every earlier hook returned, and the hook of `k` threw exactly the recorded error when given the request they left. |
| RequestWillFetch.AbortedIffHookThrew | test/workbox-core/node/_private/test-fetchWrapper.mjs:94-114 | The phase stops at plugin `k` with error `e` if and only if the earlier hooks returned and the hook of `k` threw `e`. |
| RequestWillFetch.AppendPluginWithoutHook | test/workbox-core/node/_private/test-fetchWrapper.mjs:78-84 | Appending a plugin without the hook leaves the phase's outcome and calls as they were. |
| RequestWillFetch.StepKeepsShift | test/workbox-core/node/_private/test-fetchWrapper.mjs:78-84 | Applying one more plugin to two outcomes that differ only by an inserted hookless plugin keeps them differing only by that insertion. |
| RequestWillFetch.SkipPluginWithoutHook | test/workbox-core/node/_private/test-fetchWrapper.mjs:78-84 | Inserting a plugin without the hook anywhere in the list leaves the outcome, the request and the error unchanged. The calls are the same, with the plugins after it renumbered. |
| FetchDidFail.DidFailCallsInOrder | test/workbox-core/node/_private/test-fetchWrapper.mjs:116-142 | The fetchDidFail phase calls only plugins that have the hook, in list order. Each call is told the original request, the dispatched request and the transport's error. |
| FetchDidFail.DidFailCalledOnce | test/workbox-core/node/_private/test-fetchWrapper.mjs:157-158 | The fetchDidFail hook of plugin `i` is called exactly once if the plugin has one, and never otherwise. |
| FetchDidFail.SkipPluginWithoutDidFail | test/workbox-core/node/_private/test-fetchWrapper.mjs:145-151 | Inserting a plugin without fetchDidFail adds no call and only renumbers the calls of the plugins after it. |
| FetchWrapper.ThrowingHookStopsBeforeDispatch | test/workbox-core/node/_private/test-fetchWrapper.mjs:94-114 | If plugin `k`'s hook throws `e` after the earlier hooks returned, the call rejects with kind `plugin-error-request-will-fetch` and `thrownError == e`. That hook was called once, no later hook ran, the transport was called zero times and no fetchDidFail hook ran. |
| FetchWrapper.DispatchPhaseShape | test/workbox-core/node/_private/test-fetchWrapper.mjs:144-162 | The part of a call from the dispatch on begins with the dispatch of the request and options it is given. After it come only fetchDidFail calls of listed plugins. |
| FetchWrapper.FailedDispatchNotifiesInOrder | test/workbox-core/node/_private/test-fetchWrapper.mjs:116-142 | On transport failure, every plugin with fetchDidFail is called exactly once and the others never. The calls come after the dispatch and in list order: when one runs, no later plugin's hook has been called yet. Each call gets the original request, the dispatched request and the transport's error. |
| FetchWrapper.FailedDispatchRethrowsError | test/workbox-core/node/_private/test-fetchWrapper.mjs:144-162 | On transport failure the caller rejects with the transport's own error and message. There was exactly one dispatch, and it was of the transformed request. |
| FetchWrapper.HooklessPluginIsSkipped | test/workbox-core/node/_private/test-fetchWrapper.mjs:78-84 | A plugin with neither hook, anywhere in the list, changes neither the result nor the trace, except that the plugins after it are renumbered. |
| FetchWrapper.HooklessDispatchPhase | test/workbox-core/node/_private/test-fetchWrapper.mjs:145-151 | From the dispatch on, a plugin with neither hook changes nothing: the result is the same with and without it, and so are the events, except that the plugins after it are renumbered. |
| Trace.ObserversAfterHead | test/workbox-core/node/_private/test-fetchWrapper.mjs:116-142 | Appending in-order fetchDidFail calls to a part without any keeps them in plugin order. When one runs, no later plugin's hook has been counted yet, and each count equals the count in the appended part. |
| FetchWrapper.TwoRewritingPluginsScenario | test/workbox-core/node/_private/test-fetchWrapper.mjs:61-92 | In the test's three-plugin list, hooks 0 and 2 are each called once, the second sees `/test/requestWillFetch/1`, `/test/requestWillFetch/2` is dispatched, and the call succeeds. |
| FetchWrapper.ThrowingPluginScenario | test/workbox-core/node/_private/test-fetchWrapper.mjs:94-114 | The test's throwing plugin is called once. Nothing is dispatched, and the call rejects with `plugin-error-request-will-fetch` carrying "Injected Error from Test.". |
| FetchWrapper.FailingTransportScenario | test/workbox-core/node/_private/test-fetchWrapper.mjs:116-163 | In the test's failing-transport case, `/test/failingRequest/1` is dispatched once. fetchDidFail runs for plugin 0 and then plugin 2, each with original `/0`, request `/1` and "Injected Error.", and the caller gets "Injected Error.". |

## Left out

- The network transport is a function parameter that gives a response or an
  error for a request and options. No I/O is modelled.
- Browser `Request`, `Response` and `Headers` objects are left out. A request
  is its URL, and the options bag carries method, headers and body as an
  opaque record. Requests are values, so no hook can alias another's
  request.
- Promise and async scheduling are left out. One call is one sequential run,
  and "the first fetchDidFail hook sees the second's call count as 0" is
  stated as trace order.
- A `fetchDidFail` hook that itself throws is not modelled: in the model these
  hooks never throw. The design lets that error propagate and skip
  the remaining hooks, but no test asserts it.
- The `pluginName` detail of the `plugin-error-request-will-fetch` error is not
  modelled, because no test asserts it.
- No `fetchDidFail` hook runs when the transport responds. This follows the
  design: the tests with a responding transport have no plugin with that
  hook, so `RespondedDispatchNotifiesNoOne` is not backed by a test.
- A successful call returns the transport's response unchanged (`Fetched`).
  This follows the design; no test compares the two, and no lemma
  claims it.
- For a pre-built request, the options argument is not forwarded to the
  transport, as the design says. The tests do not exercise this
  case.
- Each `requestWillFetch` hook receives the request the previous hook
  returned. This follows the design: the tests' hooks ignore their argument
  and only the final dispatch is checked. The scenario lemmas' claims about
  what a later hook is given come from the model, not from a test.
- A `requestWillFetch` hook also receives the original request
  (`WillFetchContext.originalRequest`). This follows the design: the tests'
  hooks do not read it.
- A `requestWillFetch` hook always returns a request or throws. Returning
  nothing is not modelled.
- Bad-input errors are not modelled. The tests leave them untested (the TODO
  at line 20 of the test file).
- Hooks get no argument besides their context record: a `requestWillFetch`
  hook gets the original and current requests, and a `fetchDidFail` hook gets
  the original request, the dispatched request and the error.
