/** The endpoint builder of `PipelineDeals`: the API key, the resource path, an
    optional object id, extra query parameters and the page parameters make up
    the URL of one request. The query string itself is kept as a map; encoding
    it is left to an abstract `encode` function. */
module Endpoint {
  import opened Wrappers
  import opened Values

  const Protocol: string := "https"
  const Domain: string := "api.pipelinedeals.com"
  const Prefix: string := "api/v3"

  /** Everything in front of the resource path. */
  const Root: string := Protocol + "://" + Domain + "/" + Prefix + "/"

  const DefaultFormat: string := "json"
  const DefaultPerPage: int := 200

  /** The two keys the page parameters occupy. */
  const PageKeys: set<string> := {"page", "per_page"}

  /** A `PipelineDeals` client: the API key and the response format fixed at
      construction and never changed afterwards. */
  datatype Client = Client(apiKey: string, format: string)

  /** `PipelineDeals(api_key)` with the default format. */
  function NewClient(apiKey: string): (c: Client)
    ensures c.apiKey == apiKey && c.format == "json"
  {
    Client(apiKey, DefaultFormat)
  }

  /** A request URL before encoding: `detail` is the `/<id>` segment, if any. */
  datatype Url = Url(apiPath: string, detail: Option<ObjRef>, format: string, query: map<string, Json>)

  /** `endpoint(api_path, object_id, extra_params, include_page_params, page, per_page)`:
      the query is `api_key`, updated with the extra parameters, then with the page
      parameters. */
  function EndpointUrl(client: Client, apiPath: string, objectId: ObjRef, extra: map<string, Json>,
                       includePageParams: bool, page: int, perPage: int): Url
  {
    var keyed := map["api_key" := Str(client.apiKey)] + extra;
    var query := if includePageParams then keyed + map["page" := Num(page), "per_page" := Num(perPage)] else keyed;
    Url(apiPath, if IsSome(objectId) then Some(objectId) else None, client.format, query)
  }

  /** The query always holds `api_key`; it holds the page parameters exactly when they
      are asked for (or passed as extra parameters); on a shared key the later layer
      wins: page parameters over extra parameters over the API key. The id segment is
      there exactly when the object id is not None. */
  lemma EndpointQuery(client: Client, apiPath: string, objectId: ObjRef, extra: map<string, Json>,
                      includePageParams: bool, page: int, perPage: int)
    ensures var u := EndpointUrl(client, apiPath, objectId, extra, includePageParams, page, perPage);
            && u.query.Keys == {"api_key"} + extra.Keys + (if includePageParams then PageKeys else {})
            && (includePageParams ==> u.query["page"] == Num(page) && u.query["per_page"] == Num(perPage))
            && (forall k :: k in extra && !(includePageParams && k in PageKeys) ==> u.query[k] == extra[k])
            && ("api_key" !in extra ==> u.query["api_key"] == Str(client.apiKey))
            && (u.detail.Some? <==> IsSome(objectId))
            && (u.detail.Some? ==> u.detail.value == objectId)
            && u.apiPath == apiPath && u.format == client.format
  {
  }

  /** The endpoint builder as the source runs it: a query dictionary that successive
      `update` calls extend. */
  method BuildEndpoint(client: Client, apiPath: string, objectId: ObjRef, extra: map<string, Json>,
                       includePageParams: bool, page: int, perPage: int) returns (u: Url)
    ensures u == EndpointUrl(client, apiPath, objectId, extra, includePageParams, page, perPage)
  {
    var query := map["api_key" := Str(client.apiKey)];
    query := query + extra;
    if includePageParams {
      query := query + map["page" := Num(page), "per_page" := Num(perPage)];
    }
    var detail: Option<ObjRef> := None;
    if objectId != RawId(Null) {
      detail := Some(objectId);
    }
    u := Url(apiPath, detail, client.format, query);
  }

  /** The URL text: `<protocol>://<domain>/<prefix>/<api_path>[/<id>].<format>/?<query>`,
      with `show` for Python's `str` of the id and `encode` for `urlencode`. */
  function Render(u: Url, show: ObjRef -> string, encode: map<string, Json> -> string): string {
    var detail := if u.detail.Some? then "/" + show(u.detail.value) else "";
    Root + u.apiPath + detail + "." + u.format + "/?" + encode(u.query)
  }

  /** The `/<id>` segment appears in the URL text exactly when an object id that is
      not None is given, right after the resource path and before the format. */
  lemma IdSegment(client: Client, apiPath: string, objectId: ObjRef, extra: map<string, Json>,
                  includePageParams: bool, page: int, perPage: int,
                  show: ObjRef -> string, encode: map<string, Json> -> string)
    ensures var u := EndpointUrl(client, apiPath, objectId, extra, includePageParams, page, perPage);
            var tail := "." + client.format + "/?" + encode(u.query);
            Render(u, show, encode) == Root + apiPath + (if IsSome(objectId) then "/" + show(objectId) else "") + tail
  {
  }
}
