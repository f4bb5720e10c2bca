/** The dispatch orchestrator (NetworkService): it owns a base address and a
    transport and, for each location, assembles the outgoing request (URL,
    method, body, headers), applies the adapter and hands the request to the
    transport; when the URL cannot be built it reports `BadRequest` at once
    and returns the no-op handle. */
module Service {
  import opened Foundation
  import opened Adapter
  import opened Transport

  /** An HTTP method token; only its raw value is used. */
  datatype HttpMethod = HttpMethod(rawValue: string)

  /** A request body; only its bytes, if any, are used. */
  datatype Body = Body(data: Option<Data>)

  /** The caller's description of one request (HTTPLocation). */
  datatype Location = Location(
    urlPath: string,
    queryItems: seq<(string, Option<string>)>,
    httpMethod: HttpMethod,
    body: Body,
    httpHeaders: map<string, string>)

  /** The platform's URL parser (`URLComponents(string:)`) and resolver
      (`URLComponents.url`): any two partial functions. */
  datatype UrlSystem = UrlSystem(parse: string -> Option<Components>, resolve: Components -> Option<Url>)

  /** The location's (name, value) pairs as query items, in the same order. */
  function QueryItems(pairs: seq<(string, Option<string>)>): (items: seq<QueryItem>)
    ensures |items| == |pairs|
    ensures forall i :: 0 <= i < |pairs| ==> items[i].name == pairs[i].0 && items[i].value == pairs[i].1
  {
    if pairs == [] then [] else [QueryItem(pairs[0].0, pairs[0].1)] + QueryItems(pairs[1..])
  }

  /** The base address's components with the path, then the query, overwritten
      by the location's: the path is the location's, the query items are its
      pairs in order, and every other component is the base address's. */
  function WithLocation(base: Components, location: Location): (c: Components)
    ensures c.path == location.urlPath
    ensures c.queryItems == Some(QueryItems(location.queryItems))
    ensures c.(path := base.path, queryItems := base.queryItems) == base
  {
    base.(path := location.urlPath).(queryItems := Some(QueryItems(location.queryItems)))
  }

  /** The request for `url` with the location's method, body and headers set;
      every attribute an adapter can write still has `URLRequest`'s default. */
  function Prepare(url: Url, location: Location): (r: Request)
    ensures r.url == url
    ensures r.httpMethod == location.httpMethod.rawValue
    ensures r.httpBody == location.body.data
    ensures r.allHTTPHeaderFields == Some(location.httpHeaders)
    ensures forall a :: Get(r, a) == Get(NewRequest(url), a)
  {
    NewRequest(url)
      .(httpMethod := location.httpMethod.rawValue)
      .(httpBody := location.body.data)
      .(allHTTPHeaderFields := Some(location.httpHeaders))
  }

  /** The request a dispatch hands to the transport, or `None` when the base
      address does not parse or the assembled components do not resolve. */
  function Assemble(system: UrlSystem, baseURL: string, location: Location, rules: seq<Rule>): (r: Option<Request>)
    ensures r.Some? <==>
      system.parse(baseURL).Some? && system.resolve(WithLocation(system.parse(baseURL).value, location)).Some?
    ensures r.Some? ==>
      Some(r.value.url) == system.resolve(WithLocation(system.parse(baseURL).value, location))
  {
    match system.parse(baseURL)
    case None => None
    case Some(base) =>
      match system.resolve(WithLocation(base, location))
      case None => None
      case Some(url) => Some(Apply(Prepare(url, location), rules))
  }

  /** An unparsable base address fails the dispatch, whatever the location and adapter. */
  lemma UnparsableBaseFails(system: UrlSystem, baseURL: string, location: Location, rules: seq<Rule>)
    requires system.parse(baseURL) == None
    ensures Assemble(system, baseURL, location, rules) == None
  {
  }

  /** Components that do not resolve to a URL fail the dispatch the same way. */
  lemma UnresolvableFails(system: UrlSystem, baseURL: string, location: Location, rules: seq<Rule>)
    requires system.parse(baseURL).Some?
    requires system.resolve(WithLocation(system.parse(baseURL).value, location)) == None
    ensures Assemble(system, baseURL, location, rules) == None
  {
  }

  /** A base address that parses and components that resolve always give a
      request: `BadRequest` arises from those two failures and nothing else. */
  lemma BuildableSucceeds(system: UrlSystem, baseURL: string, location: Location, rules: seq<Rule>)
    requires system.parse(baseURL).Some?
    requires system.resolve(WithLocation(system.parse(baseURL).value, location)).Some?
    ensures Assemble(system, baseURL, location, rules).Some?
  {
  }

  /** The assembled components carry the location's path and its query items in
      order; the base address's own path and query are discarded, and every
      other component (scheme, user, password, host, port, fragment) is kept. */
  lemma LocationOverwritesPathAndQuery(base: Components, location: Location)
    ensures WithLocation(base, location).path == location.urlPath
    ensures WithLocation(base, location).queryItems == Some(QueryItems(location.queryItems))
    ensures forall p, q :: WithLocation(base.(path := p, queryItems := q), location) == WithLocation(base, location)
    ensures WithLocation(base, location).(path := base.path, queryItems := base.queryItems) == base
  {
  }

  /** A successful assembly resolves the overwritten components, and the request
      carries that URL and the location's method, body and headers, which the
      adapter cannot change; each adapter attribute holds the last registered
      value for it, or the platform default when no rule sets it. */
  lemma {:induction false} AssembledRequest(system: UrlSystem, baseURL: string, location: Location, rules: seq<Rule>, a: Attribute)
    requires Assemble(system, baseURL, location, rules).Some?
    ensures var request := Assemble(system, baseURL, location, rules).value;
      && system.parse(baseURL).Some?
      && system.resolve(WithLocation(system.parse(baseURL).value, location)) == Some(request.url)
      && request.httpMethod == location.httpMethod.rawValue
      && request.httpBody == location.body.data
      && request.allHTTPHeaderFields == Some(location.httpHeaders)
      && Get(request, a) == LastWrite(rules, a, Get(NewRequest(request.url), a))
  {
    var url := system.resolve(WithLocation(system.parse(baseURL).value, location)).value;
    ApplyAttribute(Prepare(url, location), rules, a);
  }

  /** The dispatch orchestrator. */
  class NetworkService {
    const baseURL: string
    const transport: Session

    /** Construction stores the base address and transport; the address is not
        validated here but parsed afresh on every dispatch. */
    constructor (baseURL: string, transport: Session)
      ensures this.baseURL == baseURL && this.transport == transport
    {
      this.baseURL := baseURL;
      this.transport := transport;
    }

    /** The synchronous failure path: one `BadRequest` delivery and the no-op handle. */
    static method Fail(completion: Completion) returns (handle: Cancellable)
      modifies completion
      ensures completion.delivered == old(completion.delivered) + [Failure(BadRequest)]
      ensures handle == EmptyCancellable
    {
      completion.Call(Failure(BadRequest));
      handle := EmptyCancellable;
    }

    /** Dispatches `location`. On failure to build the URL: completion is called
        exactly once with `BadRequest`, the no-op handle is returned and the
        transport is not invoked. Otherwise: the transport starts exactly one
        task, for the adapter's application to the assembled request, its
        handle is returned unchanged, that task has yet to deliver, and
        completion is not called here. */
    method Execute(system: UrlSystem, location: Location, adapter: RequestAdapter, completion: Completion)
      returns (handle: Cancellable)
      requires transport.Valid()
      modifies transport, completion
      ensures transport.Valid() && transport.completed == old(transport.completed)
      ensures Assemble(system, baseURL, location, adapter.modifiers).None? ==>
        && completion.delivered == old(completion.delivered) + [Failure(BadRequest)]
        && handle == EmptyCancellable
        && transport.tasks == old(transport.tasks)
      ensures Assemble(system, baseURL, location, adapter.modifiers).Some? ==>
        && transport.tasks == old(transport.tasks) +
             [DataTask(Assemble(system, baseURL, location, adapter.modifiers).value, completion)]
        && handle == Task(|old(transport.tasks)|)
        && handle.id !in transport.completed
        && completion.delivered == old(completion.delivered)
    {
      var parsed := system.parse(baseURL);
      if parsed.None? {
        handle := Fail(completion);
        return;
      }
      var components := parsed.value;
      components := components.(path := location.urlPath);
      components := components.(queryItems := Some(QueryItems(location.queryItems)));
      var url := system.resolve(components);
      if url.None? {
        handle := Fail(completion);
        return;
      }
      var request := NewRequest(url.value);
      request := request.(httpMethod := location.httpMethod.rawValue);
      request := request.(httpBody := location.body.data);
      request := request.(allHTTPHeaderFields := Some(location.httpHeaders));
      request := adapter.ApplyTo(request);
      handle := transport.Obtain(request, completion);
    }
  }
}
