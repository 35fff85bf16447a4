/** `PersonCollection`: the collection of people (`people`, instances of `Person`,
    payloads under `person`), whose `create` turns two keyword arguments into query
    flags before delegating to the base `create`. */
module People {
  import opened Wrappers
  import opened Values
  import opened Endpoint
  import opened Http
  import opened Collections

  /** The keywords `PersonCollection.create` takes for itself. */
  const PersonFlags: set<string> := {"check_for_duplicates", "deliver_assignment_email"}

  /** How `PersonCollection.create(check_for_duplicates=False,
      deliver_assignment_email=True, **attrs)` binds its keyword arguments: each flag
      is sent as "true" or "false" by its truthiness (defaults: no duplicate check,
      deliver the email); every other keyword is an attribute. */
  function PersonCreateArgs(kwargs: map<string, Json>): (a: CreateArgs)
    ensures a.extra.Keys == PersonFlags
    ensures a.extra["check_for_duplicates"] in {Str("true"), Str("false")}
    ensures a.extra["deliver_assignment_email"] in {Str("true"), Str("false")}
    ensures (a.extra["check_for_duplicates"] == Str("true")) <==>
            ("check_for_duplicates" in kwargs && Truthy(kwargs["check_for_duplicates"]))
    ensures (a.extra["deliver_assignment_email"] == Str("true")) <==>
            ("deliver_assignment_email" !in kwargs || Truthy(kwargs["deliver_assignment_email"]))
    ensures a.attrs.Keys == kwargs.Keys - PersonFlags
    ensures forall k :: k in a.attrs ==> a.attrs[k] == kwargs[k]
  {
    var extra := map[
      "check_for_duplicates" := FlagText(Lookup(kwargs, "check_for_duplicates", Bool(false))),
      "deliver_assignment_email" := FlagText(Lookup(kwargs, "deliver_assignment_email", Bool(true)))];
    CreateArgs(extra, kwargs - PersonFlags)
  }

  /** `PersonCollection(api_key)` over a client. */
  function PersonCollection(client: Client): Collection {
    Collection(client, "people", "Person", "person", PersonCreateArgs)
  }

  /** What `PersonCollection.create(**kwargs)` sends and returns: a POST to the
      `people` URL whose query is the API key and the two flags and nothing else, with
      the remaining keywords under `person`; a 2xx answer is a `Person`, a 422
      `FailedToCreate`. */
  lemma PersonCreate(client: Client, server: Server, kwargs: map<string, Json>)
    ensures var c := PersonCollection(client);
            var a := PersonCreateArgs(kwargs);
            var req := CreateRequest(c, a.extra, a.attrs);
            && req.verb == "post"
            && req.url.apiPath == "people" && req.url.detail == None
            && req.url.query.Keys == {"api_key"} + PersonFlags
            && req.url.query["api_key"] == Str(client.apiKey)
            && req.url.query["check_for_duplicates"] == a.extra["check_for_duplicates"]
            && req.url.query["deliver_assignment_email"] == a.extra["deliver_assignment_email"]
            && req.json == Some(Obj(map["person" := Obj(a.attrs)]))
            && Create(c, server, kwargs) == CreateWith(c, server, a.extra, a.attrs)
            && (Create(c, server, kwargs).Ok? ==> Create(c, server, kwargs).value.klass == "Person")
  {
    var c := PersonCollection(client);
    var a := PersonCreateArgs(kwargs);
    CreateRequestShape(c, a.extra, a.attrs);
    EndpointQuery(client, "people", RawId(Null), a.extra, false, 1, DefaultPerPage);
  }

  /** Without the two keywords a person is created with no duplicate check and with
      the assignment email, and every keyword goes into the payload. */
  lemma PersonDefaults(kwargs: map<string, Json>)
    requires "check_for_duplicates" !in kwargs && "deliver_assignment_email" !in kwargs
    ensures PersonCreateArgs(kwargs).extra == map["check_for_duplicates" := Str("false"), "deliver_assignment_email" := Str("true")]
    ensures PersonCreateArgs(kwargs).attrs == kwargs
  {
    var a := PersonCreateArgs(kwargs);
    assert a.attrs.Keys == kwargs.Keys;
  }
}
