/** The values of the host platform's networking library (Foundation) that the
    dispatch pipeline reads and writes: URL parts, the outgoing request, the
    engine's response and error. Only the attributes the pipeline touches are
    modelled; everything here is a value, as the Swift types are structs. */
module Foundation {

  datatype Option<+T> = None | Some(value: T)

  /** Payload bytes (Foundation's `Data`). */
  type Data = seq<bv8>

  /** A time interval in seconds. The pipeline only stores it, never computes on it. */
  type TimeInterval = real

  /** An absolute URL as produced by URL resolution; its text is not interpreted here. */
  datatype Url = Url(absoluteString: string)

  /** One `name=value` pair of a URL query; the value may be absent (`?flag`). */
  datatype QueryItem = QueryItem(name: string, value: Option<string>)

  /** The structural parts of a URL (URLComponents). */
  datatype Components = Components(
    scheme: Option<string>,
    user: Option<string>,
    password: Option<string>,
    host: Option<string>,
    port: Option<int>,
    path: string,
    queryItems: Option<seq<QueryItem>>,
    fragment: Option<string>)

  /** URLRequest.CachePolicy */
  datatype CachePolicy =
    | UseProtocolCachePolicy
    | ReloadIgnoringLocalCacheData
    | ReloadIgnoringLocalAndRemoteCacheData
    | ReturnCacheDataElseLoad
    | ReturnCacheDataDontLoad
    | ReloadRevalidatingCacheData

  /** URLRequest.NetworkServiceType */
  datatype NetworkServiceType =
    | Default
    | Voip
    | Video
    | Background
    | Voice
    | ResponsiveData
    | AvStreaming
    | ResponsiveAV
    | CallSignaling

  /** The outgoing request (URLRequest): what is sent, and how the engine may send it. */
  datatype Request = Request(
    url: Url,
    httpMethod: string,
    httpBody: Option<Data>,
    allHTTPHeaderFields: Option<map<string, string>>,
    allowsCellularAccess: bool,
    allowsExpensiveNetworkAccess: bool,
    allowsConstrainedNetworkAccess: bool,
    cachePolicy: CachePolicy,
    timeoutInterval: TimeInterval,
    networkServiceType: NetworkServiceType,
    httpShouldHandleCookies: bool,
    httpShouldUsePipelining: bool)

  /** `URLRequest(url:)`: a GET request for `url` with Foundation's default attributes. */
  function NewRequest(url: Url): Request
  {
    Request(url, "GET", None, None,
            true, true, true,
            UseProtocolCachePolicy, 60.0, Default,
            true, false)
  }

  /** HTTPURLResponse: the response metadata of an HTTP exchange. */
  datatype HttpUrlResponse = HttpUrlResponse(statusCode: int, allHeaderFields: map<string, string>)

  /** URLResponse: either an HTTP response or a response of some other protocol. */
  datatype UrlResponse = Http(http: HttpUrlResponse) | NonHttp(mimeType: Option<string>)

  /** An error reported by the engine (connectivity, TLS, timeout, cancellation, DNS). */
  datatype EngineError = EngineError(domain: string, code: int)
}
