/** The transport bound to the platform's HTTP engine (URLSession): it starts a
    data task for a request and, when the engine reports back, classifies the
    engine's `(error?, data?, response?)` triple into exactly one result and
    hands it to the caller's completion. */
module Transport {
  import opened Foundation

  /** The flat error taxonomy of a dispatch (DataFetchError). */
  datatype FetchError = BadRequest | TransportError(cause: EngineError) | InvalidStatusCode

  /** The result delivered to a completion: the payload and HTTP metadata, or one error. */
  datatype FetchResult = Success(data: Data, response: HttpUrlResponse) | Failure(error: FetchError)

  /** A handle for cancelling a dispatch: the engine task it started, or the
      no-op handle returned when nothing was started. Never absent. */
  datatype Cancellable = EmptyCancellable | Task(id: nat)

  /** The Successful 2xx class of status codes (section 15.3 of RFC 9110): the
      three-digit codes whose first digit, which names the class, is 2. */
  predicate IsSuccessfulStatus(code: int)
    ensures IsSuccessfulStatus(code) <==> 100 <= code < 1000 && code / 100 == 2
  {
    200 <= code < 300
  }

  /** Classification of one engine outcome, in precedence order: an engine
      error wins; otherwise payload, HTTP metadata and a 2xx status make a
      success; anything else is an invalid status. The transport never
      reports `BadRequest`, which is reserved for dispatch assembly. */
  function Classify(error: Option<EngineError>, data: Option<Data>, response: Option<UrlResponse>): (r: FetchResult)
    ensures r != Failure(BadRequest)
  {
    if error.Some? then
      Failure(TransportError(error.value))
    else if data.Some? && response.Some? && response.value.Http? && IsSuccessfulStatus(response.value.http.statusCode) then
      Success(data.value, response.value.http)
    else
      Failure(InvalidStatusCode)
  }

  /** An engine error decides the result, whatever data and response came with it. */
  lemma ErrorTakesPrecedence(e: EngineError, data: Option<Data>, response: Option<UrlResponse>)
    ensures Classify(Some(e), data, response) == Failure(TransportError(e))
  {
  }

  /** Success exactly when there is no error, there is a payload, the response
      is an HTTP response and its status is in the 2xx class; a success
      carries the engine's payload and response unchanged. */
  lemma SuccessExactly(error: Option<EngineError>, data: Option<Data>, response: Option<UrlResponse>)
    ensures Classify(error, data, response).Success? <==>
      error == None && data.Some? && response.Some? && response.value.Http? &&
      200 <= response.value.http.statusCode < 300
    ensures Classify(error, data, response).Success? ==>
      Classify(error, data, response) == Success(data.value, response.value.http)
  {
  }

  /** With no error, a status outside [200, 300) gives `InvalidStatusCode`. */
  lemma StatusOutsideRangeIsInvalid(data: Option<Data>, response: HttpUrlResponse)
    requires response.statusCode < 200 || 300 <= response.statusCode
    ensures Classify(None, data, Some(Http(response))) == Failure(InvalidStatusCode)
  {
  }

  /** The statuses either side of the 2xx class, and two common errors; an
      empty payload is still a payload. */
  lemma BoundaryStatuses(payload: Data, headers: map<string, string>)
    ensures Classify(None, Some([]), Some(Http(HttpUrlResponse(204, headers)))) == Success([], HttpUrlResponse(204, headers))
    ensures Classify(None, Some(payload), Some(Http(HttpUrlResponse(199, headers)))) == Failure(InvalidStatusCode)
    ensures Classify(None, Some(payload), Some(Http(HttpUrlResponse(200, headers)))).Success?
    ensures Classify(None, Some(payload), Some(Http(HttpUrlResponse(299, headers)))).Success?
    ensures Classify(None, Some(payload), Some(Http(HttpUrlResponse(300, headers)))) == Failure(InvalidStatusCode)
    ensures Classify(None, Some(payload), Some(Http(HttpUrlResponse(404, headers)))) == Failure(InvalidStatusCode)
    ensures Classify(None, Some(payload), Some(Http(HttpUrlResponse(500, headers)))) == Failure(InvalidStatusCode)
  {
  }

  /** With no error, a missing payload, a missing response or a response of
      another protocol gives `InvalidStatusCode`, whatever the status. */
  lemma MissingPartsAreInvalid(data: Option<Data>, response: Option<UrlResponse>)
    requires data == None || response == None || response.value.NonHttp?
    ensures Classify(None, data, response) == Failure(InvalidStatusCode)
  {
  }

  /** The classification splits the inputs three ways: a transport error
      wrapping `e` exactly when the engine reported `e`; a success exactly under
      the success condition (SuccessExactly); an invalid status exactly when
      there is no error and the success condition fails. Every input lands in
      one of the three. */
  lemma ClassificationIsExclusive(error: Option<EngineError>, data: Option<Data>, response: Option<UrlResponse>, e: EngineError)
    ensures Classify(error, data, response) == Failure(TransportError(e)) <==> error == Some(e)
    ensures Classify(error, data, response) == Failure(InvalidStatusCode) <==>
      error == None &&
      !(data.Some? && response.Some? && response.value.Http? && IsSuccessfulStatus(response.value.http.statusCode))
    ensures var r := Classify(error, data, response);
      (r.Failure? && r.error.TransportError?) || r.Success? || r == Failure(InvalidStatusCode)
  {
  }

  /** The caller's completion callback, as the log of the results it has been called with. */
  class Completion {
    ghost var delivered: seq<FetchResult>

    constructor ()
      ensures delivered == []
    {
      delivered := [];
    }

    /** One invocation of the callback with `result`. */
    method Call(result: FetchResult)
      modifies this
      ensures delivered == old(delivered) + [result]
    {
      delivered := delivered + [result];
    }
  }

  /** A started engine task: the request it sends and the completion it will call. */
  datatype DataTask = DataTask(request: Request, completion: Completion)

  /** The engine session, as the list of data tasks it has created and started,
      and the ids of those whose handler the engine has already run. */
  class Session {
    var tasks: seq<DataTask>
    ghost var completed: set<nat>

    /** Only started tasks can have completed. */
    ghost predicate Valid()
      reads this
    {
      forall id :: id in completed ==> id < |tasks|
    }

    constructor ()
      ensures Valid() && tasks == [] && completed == {}
    {
      tasks := [];
      completed := {};
    }

    /** Creates and starts a data task for `request` and returns that task as
        the handle. The completion is not called here: nothing is delivered
        before the engine reports back, and the new task has not completed. */
    method Obtain(request: Request, completion: Completion) returns (handle: Cancellable)
      requires Valid()
      modifies this
      ensures Valid()
      ensures tasks == old(tasks) + [DataTask(request, completion)]
      ensures completed == old(completed) && |old(tasks)| !in completed
      ensures handle == Task(|old(tasks)|) && handle != EmptyCancellable
    {
      handle := Task(|tasks|);
      tasks := tasks + [DataTask(request, completion)];
    }

    /** The engine reports the outcome of task `id`, once per task: its
        completion is called exactly once, with the classified result, and the
        task is marked completed so that it cannot deliver again. */
    method DidComplete(id: nat, data: Option<Data>, response: Option<UrlResponse>, error: Option<EngineError>)
      requires Valid() && id < |tasks| && id !in completed
      modifies this, tasks[id].completion
      ensures Valid()
      ensures tasks == old(tasks) && completed == old(completed) + {id}
      ensures tasks[id].completion.delivered ==
        old(tasks[id].completion.delivered) + [Classify(error, data, response)]
    {
      var result := Classify(error, data, response);
      tasks[id].completion.Call(result);
      completed := completed + {id};
    }
  }
}
