/** `Collection`: the operations every resource collection of the PipelineDeals API
    offers on top of the client — listing (`all`, `filter`), `create`,
    `get_or_create`, `update`, `delete` and `get_by_id`. A collection is fixed by its
    client, its resource path, the class its instances belong to, the name its
    payloads are wrapped in, and how its `create` binds keyword arguments (a subclass
    may override `create`; `get_or_create` calls whichever `create` the collection
    has). */
module Collections {
  import opened Wrappers
  import opened Values
  import opened Endpoint
  import opened Http
  import opened Paging

  /** What a `create` override hands to the base `create`: the extra query parameters
      and the attributes that go into the payload. */
  datatype CreateArgs = CreateArgs(extra: map<string, Json>, attrs: map<string, Json>)

  datatype Collection = Collection(
    client: Client,
    apiPath: string,
    klass: string,
    nameSpace: string,
    bindCreate: map<string, Json> -> CreateArgs)

  /** How the base `create(extra_params=None, **attrs)` binds keyword arguments: the
      `extra_params` keyword (a dictionary, or None for none) and all other keywords
      as attributes. */
  function Inherited(kwargs: map<string, Json>): (a: CreateArgs)
    ensures a.attrs.Keys == kwargs.Keys - {"extra_params"}
    ensures forall k :: k in a.attrs ==> a.attrs[k] == kwargs[k]
    ensures "extra_params" in kwargs && kwargs["extra_params"].Obj? ==> a.extra == kwargs["extra_params"].fields
    ensures !("extra_params" in kwargs && kwargs["extra_params"].Obj?) ==> a.extra == map[]
  {
    var extra := if "extra_params" in kwargs && kwargs["extra_params"].Obj? then kwargs["extra_params"].fields else map[];
    CreateArgs(extra, kwargs - {"extra_params"})
  }

  /** The JSON body of `create` and `update`: the attributes under the collection's
      name space. */
  function Payload(c: Collection, attrs: map<string, Json>): Json {
    Obj(map[c.nameSpace := Obj(attrs)])
  }

  /** An instance of the collection's class wrapping what `_request` returned (None
      when the response had no content). */
  function Instantiate(c: Collection, result: Option<Json>): Resource {
    Resource(c.klass, result.GetOr(Null))
  }

  // ---------------------------------------------------------------------------
  // Listing: all and filter

  /** The listing `_iter(extra_params, per_page, ...)` walks for this collection. */
  function ListingOf(c: Collection, extra: map<string, Json>, perPage: int): Listing {
    Listing(c.client, c.apiPath, c.klass, extra, perPage)
  }

  /** `all(per_page, max_pages)`: `_iter` without extra parameters. */
  method All(c: Collection, server: Server, perPage: int, maxPages: int, ghost bound: int)
    returns (items: seq<Resource>, error: Option<Error>, sent: seq<Url>)
    requires maxPages > 0 || Halts(Pager(server, ListingOf(c, map[], perPage)), bound)
    ensures Run(items, error, |sent|) == IterRun(Pager(server, ListingOf(c, map[], perPage)), maxPages, 1, bound)
    ensures sent == PageUrls(ListingOf(c, map[], perPage), |sent|)
    ensures maxPages > 0 ==> |sent| <= maxPages
  {
    items, error, sent := Iter(server, ListingOf(c, map[], perPage), maxPages, bound);
  }

  /** The query key a filter condition is sent under. */
  function ConditionKey(name: string): (key: string)
    ensures |key| == |name| + 12
    ensures key[..11] == "conditions[" && key[|key| - 1] == ']'
  {
    "conditions[" + name + "]"
  }

  /** Distinct conditions are sent under distinct query keys. */
  lemma ConditionKeyInjective(a: string, b: string)
    ensures ConditionKey(a) == ConditionKey(b) ==> a == b
  {
    if ConditionKey(a) == ConditionKey(b) {
      assert a == ConditionKey(a)[11..|ConditionKey(a)| - 1];
      assert b == ConditionKey(b)[11..|ConditionKey(b)| - 1];
    }
  }

  /** A condition key is never one of the keys the client adds itself. */
  lemma ConditionKeyReserved(name: string)
    ensures ConditionKey(name) != "api_key"
    ensures ConditionKey(name) !in PageKeys
  {
    assert ConditionKey(name)[0] == 'c';
  }

  /** The extra parameters of `filter(**conditions)`: each condition `name=value`
      becomes `conditions[name]=value`, and nothing else is added. */
  function FilterParams(conditions: map<string, Json>): (params: map<string, Json>)
    ensures params.Keys == set name | name in conditions :: ConditionKey(name)
    ensures forall name :: name in conditions ==> params[ConditionKey(name)] == conditions[name]
  {
    forall a, b ensures ConditionKey(a) == ConditionKey(b) ==> a == b {
      ConditionKeyInjective(a, b);
    }
    map name | name in conditions :: ConditionKey(name) := conditions[name]
  }

  /** `filter(per_page, max_pages, **conditions)`: `_iter` with the conditions as
      extra parameters. */
  method Filter(c: Collection, server: Server, perPage: int, maxPages: int, conditions: map<string, Json>, ghost bound: int)
    returns (items: seq<Resource>, error: Option<Error>, sent: seq<Url>)
    requires maxPages > 0 || Halts(Pager(server, ListingOf(c, FilterParams(conditions), perPage)), bound)
    ensures Run(items, error, |sent|) == IterRun(Pager(server, ListingOf(c, FilterParams(conditions), perPage)), maxPages, 1, bound)
    ensures sent == PageUrls(ListingOf(c, FilterParams(conditions), perPage), |sent|)
    ensures maxPages > 0 ==> |sent| <= maxPages
  {
    items, error, sent := Iter(server, ListingOf(c, FilterParams(conditions), perPage), maxPages, bound);
  }

  /** Every page `filter` requests carries the API key, each condition under its
      `conditions[...]` key, and the page parameters — and no other parameter. */
  lemma FilterQuery(c: Collection, conditions: map<string, Json>, perPage: int, k: int)
    ensures var q := PageUrl(ListingOf(c, FilterParams(conditions), perPage), k).query;
            && q.Keys == {"api_key"} + (set name | name in conditions :: ConditionKey(name)) + PageKeys
            && q["api_key"] == Str(c.client.apiKey)
            && (forall name :: name in conditions ==> q[ConditionKey(name)] == conditions[name])
            && q["page"] == Num(k) && q["per_page"] == Num(perPage)
  {
    var l := ListingOf(c, FilterParams(conditions), perPage);
    PageUrlQuery(l, k);
    EndpointQuery(l.client, l.apiPath, RawId(Null), l.extra, true, k, l.perPage);
    forall name | name in conditions
      ensures ConditionKey(name) !in PageKeys && ConditionKey(name) != "api_key"
    {
      ConditionKeyReserved(name);
    }
  }

  // ---------------------------------------------------------------------------
  // create

  /** The request the base `create` sends: POST to the collection URL, without page
      parameters, the payload under the name space. */
  function CreateRequest(c: Collection, extra: map<string, Json>, attrs: map<string, Json>): Request {
    Request("post", EndpointUrl(c.client, c.apiPath, RawId(Null), extra, false, 1, DefaultPerPage), Some(Payload(c, attrs)))
  }

  /** The URL of `create` names no object and carries the API key and the extra
      parameters only; the body wraps the attributes in the name space. */
  lemma CreateRequestShape(c: Collection, extra: map<string, Json>, attrs: map<string, Json>)
    ensures var req := CreateRequest(c, extra, attrs);
            && req.verb == "post"
            && req.url.apiPath == c.apiPath && req.url.detail == None
            && req.url.query.Keys == {"api_key"} + extra.Keys
            && (forall k :: k in extra ==> req.url.query[k] == extra[k])
            && req.json == Some(Obj(map[c.nameSpace := Obj(attrs)]))
  {
    EndpointQuery(c.client, c.apiPath, RawId(Null), extra, false, 1, DefaultPerPage);
  }

  /** The base `create(extra_params, **attrs)`: a 2xx answer becomes an instance, a
      422 becomes `FailedToCreate` with the response body, any other failure
      propagates. */
  function CreateWith(c: Collection, server: Server, extra: map<string, Json>, attrs: map<string, Json>): (r: Result<Resource, Error>)
    ensures var resp := server(CreateRequest(c, extra, attrs));
            && (r.Ok? <==> 200 <= resp.status < 300)
            && (r.Ok? ==> r.value == Resource(c.klass, if resp.contentLength != 0 then resp.body else Null))
            && (resp.status == 422 ==> r == Err(FailedToCreate(resp.body)))
            && (!(200 <= resp.status < 300) && resp.status != 422 ==> r == Err(HttpError(ExceptionFor(resp.status).value, resp)))
  {
    var req := CreateRequest(c, extra, attrs);
    match Execute(server, req.verb, req.url, req.json)
    case Ok(result) => Ok(Instantiate(c, result))
    case Err(e) =>
      if e.HttpError? && e.kind == Unprocessable then Err(FailedToCreate(e.response.body)) else Err(e)
  }

  /** `collection.create(**kwargs)`, through the collection's own `create`. */
  function Create(c: Collection, server: Server, kwargs: map<string, Json>): (r: Result<Resource, Error>)
    ensures var a := c.bindCreate(kwargs);
            var resp := server(CreateRequest(c, a.extra, a.attrs));
            && (r.Ok? <==> 200 <= resp.status < 300)
            && (r.Ok? ==> r.value.klass == c.klass)
            && (resp.status == 422 ==> r == Err(FailedToCreate(resp.body)))
  {
    var a := c.bindCreate(kwargs);
    CreateWith(c, server, a.extra, a.attrs)
  }

  // ---------------------------------------------------------------------------
  // get_or_create

  /** The listing `get_or_create` searches: `filter(per_page=1, **conditions)`. */
  function FindListing(c: Collection, conditions: map<string, Json>): Listing {
    ListingOf(c, FilterParams(conditions), 1)
  }

  /** How `get_or_create` settles, given what the filter produced and what `create`
      would produce: `(False, first)` when the filter yielded an entry, otherwise
      `(True, created)`; an exception of either step propagates. The creation outcome
      matters only in the second case: `create` is not reached otherwise. */
  function Settle(found: Run, made: Result<Resource, Error>): Result<(bool, Resource), Error> {
    if found.error.Some? then Err(found.error.value)
    else if |found.items| > 0 then Ok((false, found.items[0]))
    else
      var created :- made;
      Ok((true, created))
  }

  /** What `get_or_create(conditions, **kwargs)` returns. */
  function GetOrCreateOutcome(c: Collection, server: Server, conditions: map<string, Json>, kwargs: map<string, Json>): Result<(bool, Resource), Error> {
    Settle(IterRun(Pager(server, FindListing(c, conditions)), 1, 1, 0), Create(c, server, kwargs))
  }

  /** `get_or_create` as the source runs it: drain the filter, then create if it came
      back empty. */
  method GetOrCreate(c: Collection, server: Server, conditions: map<string, Json>, kwargs: map<string, Json>)
    returns (r: Result<(bool, Resource), Error>)
    ensures r == GetOrCreateOutcome(c, server, conditions, kwargs)
  {
    var items, error, sent := Filter(c, server, 1, 1, conditions, 0);
    if error.Some? {
      return Err(error.value);
    }
    if |items| > 0 {
      return Ok((false, items[0]));
    }
    var made := Create(c, server, kwargs);
    if made.Err? {
      return Err(made.error);
    }
    r := Ok((true, made.value));
  }

  /** `get_or_create` looks at the first page of its filter only, and what it returns
      is decided by that page: its first entry when it has one (reported as not
      created), the outcome of `create` when it has none (reported as created), its
      exception otherwise. */
  lemma GetOrCreateFirstPage(fetch: Fetcher, made: Result<Resource, Error>)
    ensures var first := fetch(1);
            var r := Settle(IterRun(fetch, 1, 1, 0), made);
            && (first.Err? ==> r == Err(first.error))
            && (first.Ok? && |first.value.items| > 0 ==> r == Ok((false, first.value.items[0])))
            && (first.Ok? && first.value.items == [] && made.Ok? ==> r == Ok((true, made.value)))
            && (first.Ok? && first.value.items == [] && made.Err? ==> r == Err(made.error))
  {
    IterUnfold(fetch, 1, 1, 0);
    if fetch(1).Ok? {
      FirstPageOnly(fetch, 0);
    }
  }

  /** Two servers that answer every GET alike. */
  ghost predicate SameReads(s1: Server, s2: Server) {
    forall req: Request :: req.verb == "get" ==> s1(req) == s2(req)
  }

  /** Fetching a page only reads. */
  lemma PagerReadsOnly(s1: Server, s2: Server, l: Listing, k: int)
    requires SameReads(s1, s2)
    ensures Pager(s1, l)(k) == Pager(s2, l)(k)
  {
    assert s1(Request("get", PageUrl(l, k), None)) == s2(Request("get", PageUrl(l, k), None));
  }

  /** `_iter` depends on its fetcher only through the outcomes of the fetches. */
  lemma {:induction false} IterAgree(f1: Fetcher, f2: Fetcher, maxPages: int, k: int, bound: int)
    requires forall j :: f1(j) == f2(j)
    requires 1 <= k
    requires maxPages > 0 || (k <= bound && Halts(f1, bound))
    ensures maxPages > 0 || Halts(f2, bound)
    ensures IterRun(f1, maxPages, k, bound) == IterRun(f2, maxPages, k, bound)
    decreases if maxPages > 0 then maxPages - k + 1 else bound - k
  {
    IterUnfold(f1, maxPages, k, bound);
    IterUnfold(f2, maxPages, k, bound);
    if !(k > maxPages > 0) && f1(k).Ok? && f1(k).value.number != f1(k).value.pages {
      IterAgree(f1, f2, maxPages, k + 1, bound);
    }
  }

  /** When `get_or_create` finds an object it creates nothing: the outcome does not
      depend on how the server would answer anything but a GET. */
  lemma FoundCreatesNothing(c: Collection, s1: Server, s2: Server, conditions: map<string, Json>, kwargs: map<string, Json>)
    requires SameReads(s1, s2)
    requires GetOrCreateOutcome(c, s1, conditions, kwargs).Ok? && !GetOrCreateOutcome(c, s1, conditions, kwargs).value.0
    ensures GetOrCreateOutcome(c, s2, conditions, kwargs) == GetOrCreateOutcome(c, s1, conditions, kwargs)
  {
    var l := FindListing(c, conditions);
    forall j ensures Pager(s1, l)(j) == Pager(s2, l)(j) {
      PagerReadsOnly(s1, s2, l, j);
    }
    IterAgree(Pager(s1, l), Pager(s2, l), 1, 1, 0);
    SettleFound(IterRun(Pager(s1, l), 1, 1, 0), Create(c, s1, kwargs), Create(c, s2, kwargs));
  }

  /** Once the filter has yielded an entry, what `create` would do is irrelevant. */
  lemma SettleFound(found: Run, made: Result<Resource, Error>, other: Result<Resource, Error>)
    requires Settle(found, made).Ok? && !Settle(found, made).value.0
    ensures Settle(found, other) == Settle(found, made)
  {
  }

  // ---------------------------------------------------------------------------
  // update, delete, get_by_id

  /** The object id `update` and `delete` use: the `id` of an instance of the
      collection's class (None when it has none), anything else as given. Reading
      the id of an instance whose data is not a dictionary fails. */
  function ResolveId(c: Collection, obj: ObjRef): (r: Result<ObjRef, Error>)
    ensures r.Err? <==> obj.Instance? && obj.res.klass == c.klass && !obj.res.data.Obj?
    ensures r.Err? ==> r.error == NoGetMethod
    ensures obj.Instance? && obj.res.klass == c.klass && obj.res.data.Obj? ==>
              r == Ok(RawId(if "id" in obj.res.data.fields then obj.res.data.fields["id"] else Null))
    ensures !(obj.Instance? && obj.res.klass == c.klass) ==> r == Ok(obj)
  {
    match obj
    case Instance(res) =>
      if res.klass == c.klass then
        var id := res.Get("id", Null);
        if id.Some? then Ok(RawId(id.value)) else Err(NoGetMethod)
      else Ok(obj)
    case RawId(_) => Ok(obj)
  }

  /** The URL of one object: no extra and no page parameters. */
  function DetailUrl(c: Collection, objectId: ObjRef): Url {
    EndpointUrl(c.client, c.apiPath, objectId, map[], false, 1, DefaultPerPage)
  }

  /** The object URL carries the API key alone, and names the object unless its id is
      None (then it is the collection URL). */
  lemma DetailUrlShape(c: Collection, objectId: ObjRef)
    ensures var u := DetailUrl(c, objectId);
            && u.query == map["api_key" := Str(c.client.apiKey)]
            && u.apiPath == c.apiPath
            && (u.detail == if IsSome(objectId) then Some(objectId) else None)
  {
    var u := DetailUrl(c, objectId);
    EndpointQuery(c.client, c.apiPath, objectId, map[], false, 1, DefaultPerPage);
    assert u.query.Keys == {"api_key"};
  }

  /** `update(obj, **attrs)` as written: its 422 handler reads `result`, a local that
      the failed PUT never assigned. */
  function UpdateAsWritten(c: Collection, server: Server, obj: ObjRef, attrs: map<string, Json>): (r: Result<Resource, Error>)
    ensures var id := ResolveId(c, obj);
            && (id.Err? ==> r == Err(id.error))
            && (id.Ok? ==>
                  var resp := server(Request("put", DetailUrl(c, id.value), Some(Payload(c, attrs))));
                  && (r.Ok? <==> 200 <= resp.status < 300)
                  && (r.Ok? ==> r.value == Resource(c.klass, if resp.contentLength != 0 then resp.body else Null))
                  && (resp.status == 404 ==> r == Err(DoesNotExist(c.klass, id.value)))
                  && (resp.status == 422 ==> r == Err(UnboundLocal("result"))))
  {
    var objectId :- ResolveId(c, obj);
    match Execute(server, "put", DetailUrl(c, objectId), Some(Payload(c, attrs)))
    case Ok(result) => Ok(Instantiate(c, result))
    case Err(e) =>
      if e.HttpError? && e.kind == NotFound then Err(DoesNotExist(c.klass, objectId))
      else if e.HttpError? && e.kind == Unprocessable then Err(UnboundLocal("result"))
      else Err(e)
  }

  /** `update(obj, **attrs)`, with the 422 handler reporting the response body as
      evidently intended: PUT the payload to the object URL; 404 becomes
      `DoesNotExist`, 422 `FailedToUpdate`, other failures propagate. */
  function Update(c: Collection, server: Server, obj: ObjRef, attrs: map<string, Json>): (r: Result<Resource, Error>)
    ensures var id := ResolveId(c, obj);
            && (id.Err? ==> r == Err(id.error))
            && (id.Ok? ==>
                  var resp := server(Request("put", DetailUrl(c, id.value), Some(Payload(c, attrs))));
                  && (r.Ok? <==> 200 <= resp.status < 300)
                  && (r.Ok? ==> r.value == Resource(c.klass, if resp.contentLength != 0 then resp.body else Null))
                  && (resp.status == 404 ==> r == Err(DoesNotExist(c.klass, id.value)))
                  && (resp.status == 422 ==> r == Err(FailedToUpdate(resp.body)))
                  && (!(200 <= resp.status < 300) && resp.status != 404 && resp.status != 422 ==>
                        r == Err(HttpError(ExceptionFor(resp.status).value, resp))))
  {
    var objectId :- ResolveId(c, obj);
    match Execute(server, "put", DetailUrl(c, objectId), Some(Payload(c, attrs)))
    case Ok(result) => Ok(Instantiate(c, result))
    case Err(e) =>
      if e.HttpError? && e.kind == NotFound then Err(DoesNotExist(c.klass, objectId))
      else if e.HttpError? && e.kind == Unprocessable then Err(FailedToUpdate(e.response.body))
      else Err(e)
  }

  /** The two versions of `update` part only on a 422 answer: there the source raises
      an unbound-local error where it meant `FailedToUpdate` with the server's
      validation errors. */
  lemma UpdateFinding(c: Collection, server: Server, obj: ObjRef, attrs: map<string, Json>)
    ensures var id := ResolveId(c, obj);
            && (id.Ok? && server(Request("put", DetailUrl(c, id.value), Some(Payload(c, attrs)))).status != 422 ==>
                  UpdateAsWritten(c, server, obj, attrs) == Update(c, server, obj, attrs))
            && (id.Ok? && server(Request("put", DetailUrl(c, id.value), Some(Payload(c, attrs)))).status == 422 ==>
                  && UpdateAsWritten(c, server, obj, attrs) == Err(UnboundLocal("result"))
                  && Update(c, server, obj, attrs) != UpdateAsWritten(c, server, obj, attrs))
  {
  }

  /** A server that rejects every request with a 422 and a list of errors. */
  function Rejecting(errors: Json): Server {
    req => Response(422, 1, Obj(map["errors" := errors]))
  }

  /** The concrete input of the finding: in any collection, updating object 7 against
      a server that answers 422 raises the unbound-local error, and the validation
      errors are lost. */
  lemma UpdateRejected(c: Collection)
    ensures var errors := Arr([Str("name is required")]);
            && UpdateAsWritten(c, Rejecting(errors), RawId(Num(7)), map[]) == Err(UnboundLocal("result"))
            && Update(c, Rejecting(errors), RawId(Num(7)), map[]) == Err(FailedToUpdate(Obj(map["errors" := errors])))
  {
    var errors := Arr([Str("name is required")]);
    assert Rejecting(errors)(Request("put", DetailUrl(c, RawId(Num(7))), Some(Payload(c, map[])))).status == 422;
  }

  /** `delete(obj)`: DELETE the object URL; 404 becomes `DoesNotExist`, other failures
      propagate, and any response body is discarded. */
  function Delete(c: Collection, server: Server, obj: ObjRef): (r: Result<(), Error>)
    ensures var id := ResolveId(c, obj);
            && (id.Err? ==> r == Err(id.error))
            && (id.Ok? ==>
                  var resp := server(Request("delete", DetailUrl(c, id.value), None));
                  && (r.Ok? <==> 200 <= resp.status < 300)
                  && (resp.status == 404 ==> r == Err(DoesNotExist(c.klass, id.value)))
                  && (!(200 <= resp.status < 300) && resp.status != 404 ==>
                        r == Err(HttpError(ExceptionFor(resp.status).value, resp))))
  {
    var objectId :- ResolveId(c, obj);
    match Execute(server, "delete", DetailUrl(c, objectId), None)
    case Ok(_) => Ok(())
    case Err(e) =>
      if e.HttpError? && e.kind == NotFound then Err(DoesNotExist(c.klass, objectId)) else Err(e)
  }

  /** Passing an instance of the collection's class to `update` or `delete` is the
      same as passing its id. */
  lemma InstanceOrId(c: Collection, server: Server, res: Resource, attrs: map<string, Json>)
    requires res.klass == c.klass && res.data.Obj?
    ensures var id := RawId(res.Get("id", Null).value);
            && Update(c, server, Instance(res), attrs) == Update(c, server, id, attrs)
            && UpdateAsWritten(c, server, Instance(res), attrs) == UpdateAsWritten(c, server, id, attrs)
            && Delete(c, server, Instance(res)) == Delete(c, server, id)
  {
    var id := RawId(res.Get("id", Null).value);
    assert ResolveId(c, Instance(res)) == ResolveId(c, id);
  }

  /** `get_by_id(object_id)`: GET the object URL for the id exactly as given; 404
      becomes `DoesNotExist`, other failures propagate. */
  function GetById(c: Collection, server: Server, objectId: ObjRef): (r: Result<Resource, Error>)
    ensures var resp := server(Request("get", DetailUrl(c, objectId), None));
            && (r.Ok? <==> 200 <= resp.status < 300)
            && (r.Ok? ==> r.value == Resource(c.klass, if resp.contentLength != 0 then resp.body else Null))
            && (resp.status == 404 ==> r == Err(DoesNotExist(c.klass, objectId)))
            && (!(200 <= resp.status < 300) && resp.status != 404 ==>
                  r == Err(HttpError(ExceptionFor(resp.status).value, resp)))
  {
    match Execute(server, "get", DetailUrl(c, objectId), None)
    case Ok(result) => Ok(Instantiate(c, result))
    case Err(e) =>
      if e.HttpError? && e.kind == NotFound then Err(DoesNotExist(c.klass, objectId)) else Err(e)
  }
}
