/** Values exchanged by workbox-core's fetchWrapper.fetch: requests, the
    options bag, plugins with their optional hooks, the transport's outcome,
    what the caller finally receives, and the events a call makes observable. */
module FetchTypes {

  datatype Option<+T> = None | Some(value: T)

  /** A request, identified by its URL. Method, headers and body travel in
      the options bag when the caller builds the request from a string. */
  datatype Request = Request(url: string)

  datatype Header = Header(name: string, value: string)

  /** The options bag handed to the transport; the wrapper never looks inside. */
  datatype FetchOptions = FetchOptions(httpMethod: string, headers: seq<Header>, body: string)

  /** The first argument of fetch: a URL string or an already built request. */
  datatype Input = UrlString(url: string) | PrebuiltRequest(request: Request)

  /** A thrown JavaScript error, identified by its message. */
  datatype Error = Error(message: string)

  /** What a requestWillFetch hook is given: the request the call started
      with and the request as rewritten by the hooks before it. */
  datatype WillFetchContext = WillFetchContext(originalRequest: Request, request: Request)

  /** A requestWillFetch hook either returns the request to use from now on or throws. */
  datatype HookOutcome = Returned(request: Request) | Threw(error: Error)

  /** A plugin: each recognised hook may be absent. The fetchDidFail hook
      only observes, so its presence is all that matters here. */
  datatype Plugin = Plugin(
    requestWillFetch: Option<WillFetchContext -> HookOutcome>,
    hasFetchDidFail: bool)

  predicate HasWillFetch(p: Plugin) {
    p.requestWillFetch.Some?
  }

  /** A plugin with neither hook, such as the `{}` in the plugin lists of the tests. */
  predicate IsHookless(p: Plugin) {
    !HasWillFetch(p) && !p.hasFetchDidFail
  }

  datatype Response = Response(status: nat, body: string)

  /** What the network transport does with one dispatched request. */
  datatype TransportOutcome = Responded(response: Response) | Rejected(error: Error)

  /** The network transport, a parameter of the model rather than I/O. */
  type Transport = (Request, Option<FetchOptions>) -> TransportOutcome

  /** The error kind raised when a requestWillFetch hook throws. */
  const PluginErrorRequestWillFetch: string := "plugin-error-request-will-fetch"

  /** What the caller's promise rejects with: a WorkboxError whose `name` is
      its kind and whose `details.thrownError` is the cause, or the
      transport's own error, untouched. */
  datatype FetchError =
    | WorkboxError(name: string, thrownError: Error)
    | TransportError(error: Error)

  datatype FetchResult = Fetched(response: Response) | Failed(error: FetchError)

  /** One externally visible step of a call, in the order it happens. */
  datatype Event =
    | WillFetchCalled(plugin: nat, request: Request)
    | Dispatched(request: Request, options: Option<FetchOptions>)
    | DidFailCalled(plugin: nat, originalRequest: Request, request: Request, error: Error)

  /** A whole call: what the caller receives and everything observed on the way. */
  datatype Run = Run(result: FetchResult, trace: seq<Event>)
}
