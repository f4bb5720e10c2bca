# NetworkService dispatch pipeline, in Dafny

A model of the request-dispatch core of the Swift `NetworkService` package:

- **Request adapter** (`adapter.dfy`, module `Adapter`): the `RequestAdapter` class holds an
  append-only list of modifications, each registered by a chainable setter that returns the same
  adapter; `apply(to:)` runs them over a request in registration order. A modification always
  assigns one request attribute a constant, so it is modelled as a `Rule` value
  (`SetCellular(b)`, `SetCachePolicy(p)`, …). `Apply` is the left fold that specifies
  `RequestAdapter.ApplyTo`, whose loop is proved against it. `LastWrite` is an independent
  reference definition ("the value of the last rule that sets the attribute"). It yields
  the order, frame, last-write-wins and idempotence lemmas.
- **Dispatch assembly** (`service.dfy`, module `Service`): `NetworkService.Execute` parses the
  base address, overwrites the path and then the query of the parsed components, resolves the URL,
  sets method, body and headers, applies the adapter and hands the request to the transport.
  The pure function `Assemble` gives the request that reaches the transport, or `None` for the
  `badRequest` path. `Execute`'s contract ties both paths to it: on failure, exactly one
  `BadRequest` completion, the no-op handle and no transport call; on success, exactly one
  started task for `Assemble`'s request, its handle returned, and no completion.
- **Outcome classification** (`transport.dfy`, module `Transport`): `Classify` is the three-way,
  precedence-ordered classification of the engine's `(error?, data?, response?)`. Success needs
  a status in the Successful 2xx class of section 15.3 of RFC 9110. `Session` is the URLSession
  binding of the transport. `Obtain` starts a task and returns it as the handle. `DidComplete`
  is the engine's callback: it calls the task's completion exactly once with the classified result.
- `foundation.dfy` (module `Foundation`) holds the platform value types: `Request` (URLRequest),
  `Components` (URLComponents), `HttpUrlResponse`, `UrlResponse`, `EngineError`.

The platform's URL parser and resolver (`URLComponents(string:)` and `URLComponents.url`) are
not part of this model. `Execute` and `Assemble` take them as a parameter
`UrlSystem(parse, resolve)`: two arbitrary partial functions, so every property holds for any
parser. The completion callback is the class `Completion`, a ghost log of the results it was
called with. The transport is the class `Session`, the list of tasks it has started.

Two behaviours of the code worth noting:
- `Classify` accepts an empty payload as a payload (`BoundaryStatuses`). The code only tests
  that data is present, not that it is non-empty.
- Headers are one assignment of the location's whole map (`Prepare`). The code has no merging step.

## Model

| member | source | states |
|---|---|---|
| Adapter.ApplyRule | Sources/NetworkService/RequestAdapter.swift:27-57 | a modification sets its own attribute to its value and leaves every other attribute, and url, method, body and headers, unchanged |
| Adapter.Apply | Sources/NetworkService/RequestAdapter.swift:16-20 | running any list of modifications never changes url, method, body or headers |
| Adapter.ApplyConcat | Sources/NetworkService/RequestAdapter.swift:16-20 | applying `xs + ys` is applying `xs` and then `ys` |
| Adapter.ApplySnoc | Sources/NetworkService/RequestAdapter.swift:16-20 | applying `ms + [m]` is applying `m` to the result of applying `ms`: registration order |
| Adapter.ApplyAttribute | Sources/NetworkService/RequestAdapter.swift:16-20 | every attribute after apply is the value of the last rule that sets it, or its old value if none does |
| Adapter.LastWriteWins | Sources/NetworkService/RequestAdapter.swift:36-57 | when two rules set the same attribute, the later-registered value is the one visible after apply |
| Adapter.Untargeted | Sources/NetworkService/RequestAdapter.swift:16-20 | an attribute that no registered rule sets keeps its value |
| Adapter.PortableKeepsNetworkAccess | Sources/NetworkService/RequestAdapter.swift:26-34 | an adapter built only from the setters compiled on Linux never changes the expensive- and constrained-network-access flags |
| Adapter.ApplyIdempotent | Sources/NetworkService/RequestAdapter.swift:27-57 | applying the same adapter twice gives the same request as applying it once |
| Adapter.RequestAdapter.constructor | Sources/NetworkService/RequestAdapter.swift:9-24 | a fresh adapter has no modifications, so its apply is the identity |
| Adapter.RequestAdapter.Append | Sources/NetworkService/RequestAdapter.swift:11-14 | the list grows by exactly the new rule at the end, earlier rules untouched, and the same adapter is returned |
| Adapter.RequestAdapter.ApplyTo | Sources/NetworkService/RequestAdapter.swift:16-20 | the loop's result is the fold of all rules in registration order; the adapter's list is not modified |
| Adapter.RequestAdapter.AllowsExpensiveNetworkAccess | Sources/NetworkService/RequestAdapter.swift:27-29 | appends the rule setting allowsExpensiveNetworkAccess and returns the same adapter |
| Adapter.RequestAdapter.AllowsConstrainedNetworkAccess | Sources/NetworkService/RequestAdapter.swift:31-33 | appends the rule setting allowsConstrainedNetworkAccess and returns the same adapter |
| Adapter.RequestAdapter.AllowsCellularAccess | Sources/NetworkService/RequestAdapter.swift:36-38 | appends the rule setting allowsCellularAccess and returns the same adapter |
| Adapter.RequestAdapter.CachePolicy | Sources/NetworkService/RequestAdapter.swift:40-42 | appends the rule setting cachePolicy and returns the same adapter |
| Adapter.RequestAdapter.TimeoutInterval | Sources/NetworkService/RequestAdapter.swift:44-46 | appends the rule setting timeoutInterval and returns the same adapter |
| Adapter.RequestAdapter.NetworkServiceType | Sources/NetworkService/RequestAdapter.swift:48-50 | appends the rule setting networkServiceType and returns the same adapter |
| Adapter.RequestAdapter.HttpShouldHandleCookies | Sources/NetworkService/RequestAdapter.swift:52-54 | appends the rule setting httpShouldHandleCookies and returns the same adapter |
| Adapter.RequestAdapter.HttpShouldUsePipelining | Sources/NetworkService/RequestAdapter.swift:55-57 | appends the rule setting httpShouldUsePipelining and returns the same adapter |
| Transport.Classify | Sources/NetworkService/HTTPTransport/URLSession+HTTPtransport.swift:17-26 | the transport never reports badRequest |
| Transport.ErrorTakesPrecedence | Sources/NetworkService/HTTPTransport/URLSession+HTTPtransport.swift:18-19 | an engine error gives transportError wrapping that same error, whatever the data and response |
| Transport.SuccessExactly | Sources/NetworkService/HTTPTransport/URLSession+HTTPtransport.swift:20-23 | success if and only if no error, data present, an HTTP response and 200 <= status < 300; a success carries the engine's data and response unchanged |
| Transport.StatusOutsideRangeIsInvalid | Sources/NetworkService/HTTPTransport/URLSession+HTTPtransport.swift:20-25 | with no error, any status outside [200, 300) gives invalidStatusCode |
| Transport.BoundaryStatuses | Sources/NetworkService/HTTPTransport/URLSession+HTTPtransport.swift:20-25 | 199, 300, 404 and 500 give invalidStatusCode; 200, 299 and 204 with an empty payload give success |
| Transport.MissingPartsAreInvalid | Sources/NetworkService/HTTPTransport/URLSession+HTTPtransport.swift:20-25 | with no error, missing data, a missing response or a non-HTTP response gives invalidStatusCode |
| Transport.IsSuccessfulStatus | Sources/NetworkService/HTTPTransport/URLSession+HTTPtransport.swift:22 | a status passes exactly when it is a three-digit code whose class digit is 2, the Successful class |
| Transport.ClassificationIsExclusive | Sources/NetworkService/HTTPTransport/URLSession+HTTPtransport.swift:17-26 | the inputs split three ways: transportError(e) if and only if the engine reported e; invalidStatusCode if and only if no error and the success condition fails; every input gets one of the three |
| Transport.Completion.Call | Sources/NetworkService/HTTPTransport/URLSession+HTTPtransport.swift:27 | one invocation of the completion adds exactly that result to what it has delivered |
| Transport.Session.Obtain | Sources/NetworkService/HTTPTransport/URLSession+HTTPtransport.swift:14-30 | exactly one task is created and started, for that request and completion, and that task is the returned handle; the new task has not completed and completion is not called |
| Transport.Session.DidComplete | Sources/NetworkService/HTTPTransport/URLSession+HTTPtransport.swift:16-27 | each engine callback calls the task's completion exactly once, with the classified result, and marks the task completed so it cannot deliver again |
| Service.QueryItems | Sources/NetworkService/NetworkService.swift:48-49 | the query items are exactly the location's (name, value) pairs, same number and same order |
| Service.WithLocation | Sources/NetworkService/NetworkService.swift:47-49 | the components take the location's path and its query items in order; every other component is the base address's |
| Service.Prepare | Sources/NetworkService/NetworkService.swift:51-54 | the request has the resolved URL and the location's method raw value, body data and header map; every adapter attribute keeps URLRequest's default |
| Service.Assemble | Sources/NetworkService/NetworkService.swift:44-55 | a request is produced if and only if the base address parses and the overwritten components resolve, and it carries the resolved URL |
| Service.BuildableSucceeds | Sources/NetworkService/NetworkService.swift:44-56 | a base address that parses and components that resolve always give a request: badRequest comes only from those two failures |
| Service.UnparsableBaseFails | Sources/NetworkService/NetworkService.swift:44-46 | an unparsable base address fails the dispatch, whatever the location and adapter |
| Service.UnresolvableFails | Sources/NetworkService/NetworkService.swift:50 | components that do not resolve to a URL fail the dispatch the same way |
| Service.LocationOverwritesPathAndQuery | Sources/NetworkService/NetworkService.swift:47-49 | the components carry the location's path and query items; the base address's own path and query are discarded; scheme, user, password, host, port and fragment are kept |
| Service.AssembledRequest | Sources/NetworkService/NetworkService.swift:50-55 | the request handed on has the resolved URL and the location's method raw value, body data and header map; each adapter attribute is the last registered value or the platform default |
| Service.NetworkService.constructor | Sources/NetworkService/NetworkService.swift:11-15 | construction only stores the base address and transport; no validation |
| Service.NetworkService.Fail | Sources/NetworkService/NetworkService.swift:39-42 | the failure path calls completion once with badRequest and returns the no-op handle |
| Service.NetworkService.Execute | Sources/NetworkService/NetworkService.swift:35-57 | on parse or resolve failure: one badRequest completion, the no-op handle, no transport call; otherwise exactly one transport task for the adapter's apply of the assembled request, still pending, its handle returned unchanged, no completion |

## Left out

- Real networking: `URLSession.dataTask`, `task.resume()` and the engine's threads are OS I/O. A started task is an entry in `Session.tasks`, and the engine's answer is the call `Session.DidComplete`.
- Cancellation: `URLSessionTask.cancel` is engine behaviour, and the no-op handle's `cancel` lives in a file that is not part of this model. Handles are values (`Cancellable`), and cancelling is not modelled.
- `URLComponents` parsing and `URLComponents.url` resolution (percent-encoding, section 3 of RFC 3986). They are the arbitrary partial functions in `UrlSystem`. So no concrete URL string is computed here.
- The `HTTPTransport` protocol is modelled only by the URLSession binding shown (`Session`); other transports are not modelled. `NetworkService`'s constructor takes the transport explicitly: Swift's default argument `URLSession.shared` is not modelled.
- Transport.Session.DidComplete: that the engine runs a task's handler once is URLSession's guarantee, not this code's; the model states it as the precondition that the task has not completed, and records each completion in the ghost set `completed`.
- `URLRequestConvertible` (`request.urlRequest` returns the request itself) is elided: `Obtain` takes a `Request`.
- `request(...)` overloads, `LocationFetchRequest`, `eraseToAny`, `decode` and JSON decoding: thin wrappers over types that are not part of this model.
- `TimeInterval` is a `real` that is only stored, never computed on, so floating-point behaviour is not modelled.
- Concurrency: simultaneous `execute` calls, and cancellation racing with completion.
- `#if !os(Linux)`: the two network-access setters are always present in the class. The Linux build is captured by `Portable` rules and `PortableKeepsNetworkAccess`, not by a build flag.
- `HTTPLocation`'s definition is not part of this model. `Location` carries only what `execute` reads: the path, the query pairs, the method's raw value, the body's data and the header map.
