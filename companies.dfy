/** `CompanyCollection`: the collection of companies (`companies`, instances of
    `Company`, payloads under `company`), whose `create` turns one keyword argument
    into a query flag before delegating to the base `create`. */
module Companies {
  import opened Wrappers
  import opened Values
  import opened Endpoint
  import opened Http
  import opened Collections

  /** The keyword `CompanyCollection.create` takes for itself. */
  const CompanyFlags: set<string> := {"check_for_duplicates"}

  /** How `CompanyCollection.create(check_for_duplicates=False, **attrs)` binds its
      keyword arguments: the flag is sent as "true" or "false" by its truthiness
      (default: no duplicate check); every other keyword is an attribute. */
  function CompanyCreateArgs(kwargs: map<string, Json>): (a: CreateArgs)
    ensures a.extra.Keys == CompanyFlags
    ensures a.extra["check_for_duplicates"] in {Str("true"), Str("false")}
    ensures (a.extra["check_for_duplicates"] == Str("true")) <==>
            ("check_for_duplicates" in kwargs && Truthy(kwargs["check_for_duplicates"]))
    ensures a.attrs.Keys == kwargs.Keys - CompanyFlags
    ensures forall k :: k in a.attrs ==> a.attrs[k] == kwargs[k]
  {
    var extra := map["check_for_duplicates" := FlagText(Lookup(kwargs, "check_for_duplicates", Bool(false)))];
    CreateArgs(extra, kwargs - CompanyFlags)
  }

  /** `CompanyCollection(api_key)` over a client. */
  function CompanyCollection(client: Client): Collection {
    Collection(client, "companies", "Company", "company", CompanyCreateArgs)
  }

  /** What `CompanyCollection.create(**kwargs)` sends and returns: a POST to the
      `companies` URL whose query is the API key and the flag and nothing else, with
      the remaining keywords under `company`; a 2xx answer is a `Company`, a 422
      `FailedToCreate`. */
  lemma CompanyCreate(client: Client, server: Server, kwargs: map<string, Json>)
    ensures var c := CompanyCollection(client);
            var a := CompanyCreateArgs(kwargs);
            var req := CreateRequest(c, a.extra, a.attrs);
            && req.verb == "post"
            && req.url.apiPath == "companies" && req.url.detail == None
            && req.url.query.Keys == {"api_key"} + CompanyFlags
            && req.url.query["api_key"] == Str(client.apiKey)
            && req.url.query["check_for_duplicates"] == a.extra["check_for_duplicates"]
            && req.json == Some(Obj(map["company" := Obj(a.attrs)]))
            && Create(c, server, kwargs) == CreateWith(c, server, a.extra, a.attrs)
            && (Create(c, server, kwargs).Ok? ==> Create(c, server, kwargs).value.klass == "Company")
  {
    var c := CompanyCollection(client);
    var a := CompanyCreateArgs(kwargs);
    CreateRequestShape(c, a.extra, a.attrs);
    EndpointQuery(client, "companies", RawId(Null), a.extra, false, 1, DefaultPerPage);
  }

  /** Without the keyword a company is created with no duplicate check, and every
      keyword goes into the payload. */
  lemma CompanyDefaults(kwargs: map<string, Json>)
    requires "check_for_duplicates" !in kwargs
    ensures CompanyCreateArgs(kwargs).extra == map["check_for_duplicates" := Str("false")]
    ensures CompanyCreateArgs(kwargs).attrs == kwargs
  {
    var a := CompanyCreateArgs(kwargs);
    assert a.attrs.Keys == kwargs.Keys;
  }
}
