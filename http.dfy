/** The HTTP executor of `PipelineDeals`: one request to an abstract transport,
    the status code classified into the exception taxonomy, and the body returned
    only when the response declares content. Also the exceptions every layer of
    the client raises. */
module Http {
  import opened Wrappers
  import opened Values
  import opened Endpoint

  /** What the transport is asked: the `requests` function name (the verb), the URL and the
      JSON payload (`json=` keyword), if any. */
  datatype Request = Request(verb: string, url: Url, json: Option<Json>)

  /** What the transport answers: status code, the content-length header as a number
      (0 when absent) and the decoded body. */
  datatype Response = Response(status: int, contentLength: int, body: Json)

  /** The transport: the server's answer to each request. */
  type Server = Request -> Response

  /** The HTTP exception family: 404, 422, 500 and the generic one for other failures. */
  datatype HttpKind = NotFound | Unprocessable | ServerError | Generic

  /** The exceptions a call can end in. */
  datatype Error =
    | HttpError(kind: HttpKind, response: Response)  // PipelineDealsHTTPException and its subclasses
    | UnsupportedMethod                              // ValueError for a verb `requests` lacks
    | Malformed                                      // KeyError/TypeError on a body without the listing shape
    | NoGetMethod                                    // AttributeError: an instance whose data is not a mapping
    | DoesNotExist(klass: string, objectId: ObjRef)  // Collection.DoesNotExist
    | FailedToCreate(details: Json)                  // Collection.FailedToCreate with the server's payload
    | FailedToUpdate(details: Json)                  // Collection.FailedToUpdate with the server's payload
    | UnboundLocal(name: string)                     // UnboundLocalError

  /** EXCEPTION_MAPPING. */
  const ExceptionMapping: map<int, HttpKind> := map[404 := NotFound, 422 := Unprocessable, 500 := ServerError]

  /** `_get_exception_by_status`: None for success, otherwise the exception class. */
  function ExceptionFor(status: int): (r: Option<HttpKind>)
    ensures r.None? <==> 200 <= status < 300
    ensures r == Some(NotFound) <==> status == 404
    ensures r == Some(Unprocessable) <==> status == 422
    ensures r == Some(ServerError) <==> status == 500
    ensures r == Some(Generic) <==> !(200 <= status < 300) && status != 404 && status != 422 && status != 500
  {
    if 200 <= status < 300 then None
    else if status in ExceptionMapping then Some(ExceptionMapping[status])
    else Some(Generic)
  }

  /** The verbs the client calls `requests` with. */
  const Verbs: set<string> := {"get", "post", "put", "delete"}

  /** `_request(verb, url, json=...)`: success gives the decoded body when the
      content length is not zero and None otherwise; a failure status raises the
      exception of its class, carrying the response. */
  function Execute(server: Server, verb: string, url: Url, json: Option<Json>): (r: Result<Option<Json>, Error>)
    ensures verb !in Verbs ==> r == Err(UnsupportedMethod)
    ensures verb in Verbs ==>
              var resp := server(Request(verb, url, json));
              && (r.Ok? <==> 200 <= resp.status < 300)
              && (r.Ok? ==> r.value == if resp.contentLength != 0 then Some(resp.body) else None)
              && (r.Err? ==> r.error == HttpError(ExceptionFor(resp.status).value, resp))
  {
    if verb !in Verbs then Err(UnsupportedMethod)
    else
      var resp := server(Request(verb, url, json));
      var exception := ExceptionFor(resp.status);
      if exception.Some? then Err(HttpError(exception.value, resp))
      else if resp.contentLength != 0 then Ok(Some(resp.body))
      else Ok(None)
  }
}
