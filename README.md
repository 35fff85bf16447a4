# PipelineDeals client core, modelled in Dafny

This project models the core of the PipelineDeals Python client: a thin layer over
the PipelineDeals REST API (version 3) that builds request URLs and classifies HTTP
answers. It also walks paginated listings and offers create / read / update / delete
operations on resource collections.

The HTTP transport is an oracle: a total function `Server` from a request (verb,
URL, optional JSON payload) to a response (status code, content-length header as a
number, decoded JSON body). Everything the client does on top of that oracle is
modelled.

- `values.dfy` (module `Values`): decoded JSON values, Python truthiness, and the
  `str(bool(x)).lower()` flag text. Also `PipelineDealsObject` as a read-only value
  (`Resource`), and object references: an instance, or a raw id where JSON null
  plays Python's None.
- `endpoint.dfy` (module `Endpoint`): the client (API key and format) and
  `endpoint`. The query is a map built by successive updates; `BuildEndpoint` does
  it the way the source does, step by step. URL text comes from an abstract
  encoder.
- `http.dfy` (module `Http`): `EXCEPTION_MAPPING`, `_get_exception_by_status`,
  `_request`, and the exception hierarchy as an `Error` datatype.
- `paging.dfy` (module `Paging`):
  - `Page` and its iteration;
  - `Collection._iter` as a loop (`Iter`) proved against the run it must produce
    (`IterRun`);
  - `PipelineDeals.fetch_iter` as a loop (`FetchIter`) proved against `SweepRun`.
- `collections.dfy` (module `Collections`): `Collection`, i.e. `all`, `filter`,
  `create`, `get_or_create`, `update`, `delete` and `get_by_id`. A collection's own
  `create` (a subclass override) is a function-valued field `bindCreate`, so
  `get_or_create` reaches the same `create` the Python method dispatch would.
- `people.dfy`, `companies.dfy` (modules `People`, `Companies`): `PersonCollection`
  and `CompanyCollection` with their path, class, name space and create flags.
- `wrappers.dfy` (module `Wrappers`): `Option` and `Result`.

`_iter` with `max_pages <= 0` only ends when the server reports a last page. Its
model therefore takes a ghost page number `bound` on which the server is assumed to
stop (`Halts`). `fetch_iter` has no such guarantee: as long as the server keeps answering a page
falsily, it asks for that same page again. Its model therefore runs for at most
`fuel` passes and reports whether that budget ran out.

## Model

| member | source | states |
|---|---|---|
| Values.FlagText | people.py:16-17 | the flag text is always "true" or "false", and "true" exactly when the value is truthy in Python's sense |
| Values.Resource.Get | base.py:120-121 | `obj.get(attr, default)` on an instance whose data is a mapping: the stored value when the key is present, the default otherwise; fails when the data is not a mapping |
| Values.Resource.Items | base.py:117-118 | `items()` gives exactly the data's keys with their values; fails when the data is not a mapping |
| Endpoint.NewClient | base.py:37-39 | a new client keeps its API key, and its format defaults to json |
| Endpoint.EndpointQuery | base.py:73-86 | the query always holds `api_key`, holds `page`/`per_page` exactly when page parameters are asked for (or passed as extras), and a later update wins on a shared key; the id segment is present exactly when the object id is not None |
| Endpoint.BuildEndpoint | base.py:73-93 | the step-by-step dictionary updates produce exactly the URL `EndpointUrl` describes |
| Endpoint.IdSegment | base.py:86-93 | the URL text is root, api path, then `/<id>` only when the id is not None, then `.<format>/?<query>` |
| Http.ExceptionFor | base.py:41-45 | no exception exactly for 200..299; 404, 422 and 500 map to their own exceptions, and every other failing status maps to the generic one |
| Http.Execute | base.py:47-59 | an unknown verb raises; otherwise success exactly on 2xx, with the body when content-length is non-zero and None when it is zero, and a failing status raises the exception its class says, carrying the response |
| Paging.Pagination | base.py:18-19 | the page number and page count are read from `pagination.page` and `pagination.pages`, and are missing exactly when that shape is missing |
| Paging.Entries | base.py:22 | the entries are the `entries` list, missing exactly when the body has none |
| Paging.ParsePage | base.py:15-19 | a Page is built exactly from an object body with pagination and keeps the class and body; otherwise the lookup fails |
| Paging.Wrap | base.py:21-23 | every entry is wrapped, in order, by the instance class |
| Paging.PageItems | base.py:21-23 | iterating a Page yields its entries wrapped, in order, or fails when it has no entries list |
| Paging.PageUrlQuery | base.py:146 | the request for page k carries the API key, the extra parameters, `page = k` and the caller's `per_page` |
| Paging.PageUrls | base.py:142-153 | the list of URLs for the first n pages has n elements |
| Paging.PageUrlsAt | base.py:141-147 | the i-th URL requested is the one for page i + 1 with the caller's `per_page` |
| Paging.IterRun | base.py:141-153 | with a positive cap, a run from page k requests at most `max_pages - k + 1` pages |
| Paging.IterUnfold | base.py:143-153 | one pass of the loop: stop at the cap, propagate the exception, stop after the last page, or yield and go on to the next page |
| Paging.IterStep | base.py:146-153 | in a run in progress, the fetch of the current page ends the run with its exception, ends it after a last page, or adds the page's instances and carries on from the next page |
| Paging.FetchStep | base.py:146-149 | one pass builds the endpoint for the current page and fetches and wraps that page |
| Paging.Iter | base.py:141-153 | the loop yields exactly the run `IterRun` describes; its k-th request is for page k; with a positive cap it requests at most `max_pages` pages |
| Paging.IterConcatenates | base.py:148-153 | the output is the wrapped entries of every successfully fetched page, concatenated in fetch order; an exception comes from the last request; no page before the last one requested was a last page |
| Paging.IterStopsAtLast | base.py:144-152 | a run that finishes stops at a page with `number == pages` or at the cap; without a positive cap it fetches at least one page and stops only at a last page |
| Paging.FirstPageOnly | base.py:141-153 | with `max_pages = 1` exactly one page is requested, and its entries are the output |
| Paging.FeedUrlQuery | base.py:102 | `fetch_iter` requests each page with the API key, the extra parameters and the default page size of 200 |
| Paging.Digest | base.py:104-108 | a falsy result changes nothing; a truthy object body with an entries list and pagination, and only such a body, yields its entries and moves the cursor to its reported page and page count; a body without pagination fails after yielding its entries (none when it has no entries list) |
| Paging.SweepRun | base.py:95-109 | within the pass budget, the run makes at most one request per pass, and runs out only after using every pass |
| Paging.SweepUnfold | base.py:101-109 | one pass of the loop: propagate the exception, stay on the page after a falsy answer, fail on a malformed body, or yield and advance |
| Paging.SweepStep | base.py:101-109 | in a run in progress, the answer for the current page ends the run with its exception or a malformed-body failure, or carries it on: on the same page after a falsy answer, from the reported page + 1 after a listing |
| Paging.FetchIter | base.py:95-109 | for any page getter, the loop produces exactly the run `SweepRun` describes, from page 1 with unknown page count |
| Paging.FetchFeed | base.py:95-109 | against a server, `fetch_iter` of a resource path and extra parameters is that loop with the getter that requests each page's URL |
| Paging.FeedGetterAnswers | base.py:102-103 | the feed's getter answers a page with the `_request` outcome of a GET of that page's URL: the body on 2xx (None without content), otherwise the exception of the status |
| Paging.SweepHonest | base.py:95-109 | against a server that reports n pages faithfully, pages 1..n are requested once each in order, all their entries are yielded, and the run ends by itself |
| Paging.SweepStalls | base.py:103-104 | as long as the server keeps answering a page falsily, that page is requested on every pass and nothing is yielded, until the pass budget runs out |
| Paging.SweepStopsAtLast | base.py:101-109 | an answer reporting its page as the last one ends the run; nothing more is requested |
| Collections.Inherited | base.py:155 | the base `create` takes `extra_params` (a dictionary, or none) and every other keyword as an attribute |
| Collections.All | base.py:185-186 | `all` is the paged walk without extra parameters |
| Collections.ConditionKey | base.py:189-191 | a condition `name` is sent under `conditions[name]` |
| Collections.ConditionKeyInjective | base.py:189-191 | distinct conditions never share a query key |
| Collections.ConditionKeyReserved | base.py:189-191 | a condition key never collides with `api_key`, `page` or `per_page` |
| Collections.FilterParams | base.py:189-191 | the extra parameters are exactly one `conditions[name]` entry per condition, holding its value |
| Collections.Filter | base.py:188-192 | `filter` is the paged walk with the condition parameters |
| Collections.FilterQuery | base.py:188-192 | every page `filter` requests carries exactly the API key, the condition entries and the page parameters |
| Collections.CreateRequestShape | base.py:155-160 | `create` POSTs to the collection URL (no id, no page parameters, the API key and extras only) with the attributes under the name space |
| Collections.CreateWith | base.py:155-163 | success exactly on 2xx, giving an instance of the collection's class; 422 becomes `FailedToCreate` with the response body; other failures propagate |
| Collections.Create | base.py:155-163 | a collection's `create` goes through its own keyword binding: success exactly on 2xx with an instance of its class, and 422 becomes `FailedToCreate` |
| Collections.GetOrCreate | base.py:165-183 | the method returns exactly the decision `Settle` makes on the filter's run and the outcome of `create` |
| Collections.GetOrCreateFirstPage | base.py:180-183 | only the first page of `filter(per_page=1)` decides: its first entry as (False, entry), otherwise (True, created), or the exception of the failing step |
| Collections.IterAgree | base.py:141-153 | the paged walk depends on the server only through the outcomes of its page fetches |
| Collections.FoundCreatesNothing | base.py:180-182 | when an object is found the outcome does not depend on how the server answers anything but a GET: nothing is created |
| Collections.ResolveId | base.py:199-202 | an instance of the collection's class stands for its `id` (None when missing); anything else is the id itself; an instance whose data is not a mapping fails |
| Collections.DetailUrlShape | base.py:204 | the object URL carries only the API key, and names the object unless its id is None |
| Collections.UpdateAsWritten | base.py:194-216 | the update as written: PUT the payload to the object URL; 2xx gives an instance, 404 `DoesNotExist`, and 422 an unbound-local error |
| Collections.Update | base.py:194-216 | the update as intended: 2xx gives an instance, 404 `DoesNotExist`, 422 `FailedToUpdate` with the response body, others propagate |
| Collections.UpdateFinding | base.py:215-216 | the two updates agree on every answer except 422, where the written one raises the unbound-local error |
| Collections.UpdateRejected | base.py:215-216 | a concrete 422 answer with validation errors: the written update loses them, the intended one reports them |
| Collections.Delete | base.py:219-235 | DELETE the object URL: success exactly on 2xx, 404 becomes `DoesNotExist`, other failures propagate |
| Collections.InstanceOrId | base.py:199-202 | passing an instance to `update` or `delete` gives the same result as passing its id |
| Collections.GetById | base.py:237-245 | GET the object URL for the id as given: 2xx gives an instance, 404 `DoesNotExist`, other failures propagate |
| People.PersonCreateArgs | people.py:14-18 | exactly two extra parameters, `check_for_duplicates` and `deliver_assignment_email`, each "true" exactly when truthy (defaults false and true); every other keyword is an attribute |
| People.PersonCreate | people.py:8-19 | a person is created by a POST to `people` whose query is the API key and the two flags only, with the attributes under `person`, and the result is a `Person` |
| People.PersonDefaults | people.py:14-17 | without the keywords, `check_for_duplicates` is "false" and `deliver_assignment_email` is "true" |
| Companies.CompanyCreateArgs | companies.py:14-17 | exactly one extra parameter, `check_for_duplicates`, "true" exactly when truthy (default false); every other keyword is an attribute |
| Companies.CompanyCreate | companies.py:8-18 | a company is created by a POST to `companies` whose query is the API key and the flag only, with the attributes under `company`, and the result is a `Company` |
| Companies.CompanyDefaults | companies.py:14-16 | without the keyword, `check_for_duplicates` is "false" |

## Left out

- The HTTP library: `getattr(requests, method)` and the request itself. The transport is the `Server` oracle. A verb outside get/post/put/delete stands for a name the library lacks.
- `urllib.urlencode`, Python's `str()` of an object id, and `response.json()`: encoding is the abstract `encode`/`show` parameters of `Render`, and bodies are already decoded. A body that does not decode is not modelled.
- The content-length header is a number in the model. A missing header is 0; a header that is not an integer is not modelled.
- `float('inf')` in `fetch_iter` is the absent page count (`None`).
- Generator laziness: each iterator is the whole run it produces (items, final exception, requests made). A caller that stops consuming early is not modelled.
- Paging.SweepRun, Paging.FetchIter: `fetch_iter` is bounded by `fuel` passes, because it loops for as long as the server answers a page falsily. Exhausting the fuel stands for that non-termination.
- The server is stateless: `Server` (and so every page fetcher and getter) is a function, so the same request always gets the same answer. A server whose answers change between requests is not modelled. This covers a server that starts answering a page truthily after a retry, and one changed by `create`, `update` or `delete` between requests.
- Paging.IterRun, Paging.Iter: an uncapped `_iter` is modelled only for servers that eventually report a last page (the ghost `bound`). Against other servers the source loops forever.
- Paging.Pagination, Paging.Entries: out-of-protocol shapes are refused as `Malformed` where Python carries on. These are `page`/`pages` values that are not integers (Python compares them with `==`, so two nulls end `_iter`) and an `entries` value that is not a list (Python iterates a dict or a string). The API's listing format fixes them as integers and a list. Python's `TypeError`/`KeyError` cases on a body without the listing shape are folded into the same error.
- Collections.Inherited: an `extra_params` keyword that is neither a dictionary nor None is treated as none.
- Keyword collisions are not modelled. Examples: a condition named `per_page` or `max_pages` in `filter`, or `extra_params` passed to a person's or company's `create`. In Python these bind to other parameters or raise a `TypeError`.
- The `DoesNotExist` message text: the error carries the class name and the object id it would format.
- `PipelineDealsObject.__repr__` (string formatting only). deals.py and __init__.py are not part of this model: they only configure and re-export.
- `PipelineDeals.fetch_iter`'s own request building is the getter `FeedGetter`. `FetchIter` is stated for every getter, and `FetchFeed` runs it with `FeedGetter` for a server and a feed. The endpoint for each page is not built step by step there, as `Iter` does through `BuildEndpoint`.

## Findings

| source | as written | input that shows it | evidently intended | confidence | as-written member | corrected member |
|---|---|---|---|---|---|---|
| base.py:215-216 | the 422 handler of `update` reads `result`, a local the failed PUT never assigned, so it raises an unbound-local error instead of `FailedToUpdate` | `update(7)` against a server that answers the PUT with status 422 and a body of validation errors | raise `FailedToUpdate` with the response body, as `create` does for its 422 | high (not executed) | Collections.UpdateAsWritten, Collections.UpdateRejected | Collections.Update |
