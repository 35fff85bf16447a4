/** Pagination: the `Page` wrapper, the collection iterator `_iter` (pages 1, 2, …
    until the page cap or the last page) and the bulk `fetch_iter` (which follows the
    page numbers the server reports). A generator is modelled by what it yields
    before it stops, together with the exception it stops with, if any. */
module Paging {
  import opened Wrappers
  import opened Values
  import opened Endpoint
  import opened Http

  /** `pagination.page` and `pagination.pages` of a listing body; None when the body
      lacks them (Python raises KeyError or TypeError). */
  function Pagination(data: map<string, Json>): (r: Option<(int, int)>)
    ensures r.Some? <==> (&& "pagination" in data && data["pagination"].Obj?
                          && "page" in data["pagination"].fields && data["pagination"].fields["page"].Num?
                          && "pages" in data["pagination"].fields && data["pagination"].fields["pages"].Num?)
    ensures r.Some? ==> r.value == (data["pagination"].fields["page"].n, data["pagination"].fields["pages"].n)
  {
    if "pagination" in data && data["pagination"].Obj? then
      var p := data["pagination"].fields;
      if "page" in p && p["page"].Num? && "pages" in p && p["pages"].Num? then Some((p["page"].n, p["pages"].n))
      else None
    else None
  }

  /** The `entries` list of a listing body; None when it is missing or not a list. */
  function Entries(data: map<string, Json>): (r: Option<seq<Json>>)
    ensures r.Some? <==> "entries" in data && data["entries"].Arr?
    ensures r.Some? ==> r.value == data["entries"].items
  {
    if "entries" in data && data["entries"].Arr? then Some(data["entries"].items) else None
  }

  /** One page of a listing: its number, the page count, and the body it came from. */
  datatype Page = Page(klass: string, number: int, pages: int, data: map<string, Json>)

  /** `Page(instance_klass, page_data)`: reads the page number and count. */
  function ParsePage(klass: string, result: Option<Json>): (r: Result<Page, Error>)
    ensures r.Ok? <==> result.Some? && result.value.Obj? && Pagination(result.value.fields).Some?
    ensures r.Ok? ==> && r.value.klass == klass && r.value.data == result.value.fields
                      && (r.value.number, r.value.pages) == Pagination(result.value.fields).value
    ensures r.Err? ==> r.error == Malformed
  {
    if result.Some? && result.value.Obj? && Pagination(result.value.fields).Some? then
      var (number, pages) := Pagination(result.value.fields).value;
      Ok(Page(klass, number, pages, result.value.fields))
    else Err(Malformed)
  }

  /** Each raw entry wrapped by the instance class. */
  function Wrap(klass: string, entries: seq<Json>): (r: seq<Resource>)
    ensures |r| == |entries|
    ensures forall i :: 0 <= i < |r| ==> r[i] == Resource(klass, entries[i])
  {
    seq(|entries|, i requires 0 <= i < |entries| => Resource(klass, entries[i]))
  }

  /** `Page.__iter__`: every entry of the page, in order, wrapped by the page's class. */
  function PageItems(p: Page): (r: Result<seq<Resource>, Error>)
    ensures r.Ok? <==> Entries(p.data).Some?
    ensures r.Ok? ==> |r.value| == |Entries(p.data).value|
    ensures r.Ok? ==> forall i :: 0 <= i < |r.value| ==> r.value[i] == Resource(p.klass, Entries(p.data).value[i])
    ensures r.Err? ==> r.error == Malformed
  {
    if Entries(p.data).Some? then Ok(Wrap(p.klass, Entries(p.data).value)) else Err(Malformed)
  }

  // ---------------------------------------------------------------------------
  // Collection._iter

  /** The fixed inputs of one `_iter` run: the collection's client, path and
      instance class, the extra query parameters and the page size. */
  datatype Listing = Listing(client: Client, apiPath: string, klass: string, extra: map<string, Json>, perPage: int)

  /** The URL `_iter` requests for page `k`. */
  function PageUrl(l: Listing, k: int): Url {
    EndpointUrl(l.client, l.apiPath, RawId(Null), l.extra, true, k, l.perPage)
  }

  /** Page `k` is asked for as `page = k` with the listing's page size, on the
      collection path without an id segment; the extra parameters are all there. */
  lemma PageUrlQuery(l: Listing, k: int)
    ensures var u := PageUrl(l, k);
            && u.query.Keys == {"api_key"} + l.extra.Keys + PageKeys
            && u.query["page"] == Num(k) && u.query["per_page"] == Num(l.perPage)
            && u.apiPath == l.apiPath && u.detail.None?
  {
  }

  /** The URLs of pages 1 to `n`, in request order. */
  function PageUrls(l: Listing, n: nat): (urls: seq<Url>)
    ensures |urls| == n
  {
    if n == 0 then [] else PageUrls(l, n - 1) + [PageUrl(l, n)]
  }

  /** The i-th URL of the sequence asks for page i + 1 at the listing's page size. */
  lemma {:induction false} PageUrlsAt(l: Listing, n: nat, i: nat)
    requires i < n
    ensures PageUrls(l, n)[i] == PageUrl(l, i + 1)
    ensures PageKeys <= PageUrls(l, n)[i].query.Keys
    ensures PageUrls(l, n)[i].query["page"] == Num(i + 1)
    ensures PageUrls(l, n)[i].query["per_page"] == Num(l.perPage)
  {
    if i < n - 1 {
      PageUrlsAt(l, n - 1, i);
    } else {
      PageUrlQuery(l, i + 1);
    }
  }

  /** What one fetched page contributes: its number, the page count and its instances. */
  datatype Fetched = Fetched(number: int, pages: int, items: seq<Resource>)

  /** One step of `_iter`: GET page `k`, wrap the body in a Page, wrap its entries. */
  function FetchPage(server: Server, l: Listing, k: int): Result<Fetched, Error> {
    var result :- Execute(server, "get", PageUrl(l, k), None);
    var page :- ParsePage(l.klass, result);
    var items :- PageItems(page);
    Ok(Fetched(page.number, page.pages, items))
  }

  /** The server as `_iter` sees it: the outcome of fetching each page number. */
  type Fetcher = int -> Result<Fetched, Error>

  /** The fetcher of a listing against a server. */
  function Pager(server: Server, l: Listing): Fetcher {
    k => FetchPage(server, l, k)
  }

  /** `_iter` stops after this fetch: it raised, or the page is the last one. */
  predicate Stops(f: Result<Fetched, Error>) {
    f.Err? || f.value.number == f.value.pages
  }

  /** The server assumption under which an uncapped `_iter` terminates: page `bound`
      is one it stops at. */
  predicate Halts(fetch: Fetcher, bound: int) {
    1 <= bound && Stops(fetch(bound))
  }

  /** A page `_iter` does not stop at is not the page the server halts on. */
  lemma NotPastHalt(fetch: Fetcher, k: int, bound: int)
    requires !Stops(fetch(k)) && Halts(fetch, bound)
    ensures k != bound
  {
  }

  /** What a generator run amounts to: the instances yielded, the exception it ended
      with (None when it finished), and how many pages it requested. */
  datatype Run = Run(items: seq<Resource>, error: Option<Error>, fetched: nat)

  /** A run that yielded `prefix` first and then continued as `rest`. */
  function Then(prefix: Run, rest: Run): Run {
    Run(prefix.items + rest.items, rest.error, prefix.fetched + rest.fetched)
  }

  /** Moving one fetched page of a run from its remainder onto what has been yielded. */
  lemma Carry(seen: seq<Resource>, fetched: nat, items: seq<Resource>, rest: Run, later: Run, whole: Run)
    requires Then(Run(seen, None, fetched), rest) == whole
    requires rest == Then(Run(items, None, 1), later)
    ensures Then(Run(seen + items, None, fetched + 1), later) == whole
  {
    assert seen + (items + later.items) == (seen + items) + later.items;
  }

  /** `_iter` from `current_page = k` on. Never more than `maxPages - k + 1` requests
      when a positive cap is set. */
  function IterRun(fetch: Fetcher, maxPages: int, k: int, bound: int): (r: Run)
    requires 1 <= k
    requires maxPages > 0 || (k <= bound && Halts(fetch, bound))
    ensures maxPages > 0 ==> r.fetched <= if k > maxPages then 0 else maxPages - k + 1
    decreases if maxPages > 0 then maxPages - k + 1 else bound - k
  {
    if k > maxPages > 0 then Run([], None, 0)
    else
      var f := fetch(k);
      if f.Err? then Run([], Some(f.error), 1)
      else if f.value.number == f.value.pages then Run(f.value.items, None, 1)
      else Then(Run(f.value.items, None, 1), IterRun(fetch, maxPages, k + 1, bound))
  }

  /** One step of `IterRun`, spelled out: the cap, an exception, the last page, or
      another page to come. */
  lemma IterUnfold(fetch: Fetcher, maxPages: int, k: int, bound: int)
    requires 1 <= k
    requires maxPages > 0 || (k <= bound && Halts(fetch, bound))
    ensures k > maxPages > 0 ==> IterRun(fetch, maxPages, k, bound) == Run([], None, 0)
    ensures !(k > maxPages > 0) ==>
              var f := fetch(k);
              && (f.Err? ==> IterRun(fetch, maxPages, k, bound) == Run([], Some(f.error), 1))
              && (f.Ok? && f.value.number == f.value.pages ==> IterRun(fetch, maxPages, k, bound) == Run(f.value.items, None, 1))
              && (f.Ok? && f.value.number != f.value.pages ==>
                    && (maxPages > 0 || k + 1 <= bound)
                    && IterRun(fetch, maxPages, k, bound)
                       == Then(Run(f.value.items, None, 1), IterRun(fetch, maxPages, k + 1, bound)))
  {
    if !(k > maxPages > 0) && maxPages <= 0 && !Stops(fetch(k)) {
      NotPastHalt(fetch, k, bound);
    }
  }

  /** One pass of `_iter`'s loop, seen from a run in progress: having yielded `seen`
      from `fetched` pages, the fetch of page `k` ends the run or carries it on. */
  lemma IterStep(fetch: Fetcher, maxPages: int, k: int, bound: int, seen: seq<Resource>, fetched: nat, whole: Run)
    requires 1 <= k && !(k > maxPages > 0)
    requires maxPages > 0 || (k <= bound && Halts(fetch, bound))
    requires Then(Run(seen, None, fetched), IterRun(fetch, maxPages, k, bound)) == whole
    ensures fetch(k).Err? ==> Run(seen, Some(fetch(k).error), fetched + 1) == whole
    ensures fetch(k).Ok? && fetch(k).value.number == fetch(k).value.pages ==>
              Run(seen + fetch(k).value.items, None, fetched + 1) == whole
    ensures fetch(k).Ok? && fetch(k).value.number != fetch(k).value.pages ==>
              && (maxPages > 0 || k + 1 <= bound)
              && Then(Run(seen + fetch(k).value.items, None, fetched + 1), IterRun(fetch, maxPages, k + 1, bound)) == whole
  {
    IterUnfold(fetch, maxPages, k, bound);
    assert seen + [] == seen;
    if fetch(k).Ok? && fetch(k).value.number != fetch(k).value.pages {
      Carry(seen, fetched, fetch(k).value.items, IterRun(fetch, maxPages, k, bound), IterRun(fetch, maxPages, k + 1, bound), whole);
    }
  }

  /** One pass of `_iter`'s loop body: build the endpoint for page `k`, GET it, wrap
      the body in a Page and its entries in instances. */
  method FetchStep(server: Server, l: Listing, k: int) returns (url: Url, f: Result<Fetched, Error>)
    ensures url == PageUrl(l, k) && f == FetchPage(server, l, k)
  {
    url := BuildEndpoint(l.client, l.apiPath, RawId(Null), l.extra, true, k, l.perPage);
    var result := Execute(server, "get", url, None);
    if result.Err? {
      return url, Err(result.error);
    }
    var page := ParsePage(l.klass, result.value);
    if page.Err? {
      return url, Err(page.error);
    }
    var entries := PageItems(page.value);
    if entries.Err? {
      return url, Err(entries.error);
    }
    f := Ok(Fetched(page.value.number, page.value.pages, entries.value));
  }

  /** `_iter(extra_params, per_page, max_pages)` as the loop the source runs. Besides
      the instances and the exception, it returns the URLs it requested, in order:
      the i-th is page i + 1 at the caller's page size. */
  method Iter(server: Server, l: Listing, maxPages: int, ghost bound: int)
    returns (items: seq<Resource>, error: Option<Error>, sent: seq<Url>)
    requires maxPages > 0 || Halts(Pager(server, l), bound)
    ensures Run(items, error, |sent|) == IterRun(Pager(server, l), maxPages, 1, bound)
    ensures sent == PageUrls(l, |sent|)
    ensures maxPages > 0 ==> |sent| <= maxPages
  {
    ghost var fetch := Pager(server, l);
    items, error, sent := [], None, [];
    var currentPage := 1;
    ghost var whole := IterRun(fetch, maxPages, 1, bound);
    while true
      invariant 1 <= currentPage && |sent| == currentPage - 1
      invariant maxPages > 0 || currentPage <= bound
      invariant sent == PageUrls(l, |sent|)
      invariant Then(Run(items, None, |sent|), IterRun(fetch, maxPages, currentPage, bound)) == whole
      decreases if maxPages > 0 then maxPages - currentPage + 1 else bound - currentPage
    {
      if currentPage > maxPages > 0 {
        IterUnfold(fetch, maxPages, currentPage, bound);
        assert items + [] == items;
        break;
      }
      var url, f := FetchStep(server, l, currentPage);
      assert f == fetch(currentPage);
      IterStep(fetch, maxPages, currentPage, bound, items, |sent|, whole);
      assert PageUrls(l, |sent| + 1) == sent + [url];
      sent := sent + [url];
      if f.Err? {
        error := Some(f.error);
        break;
      }
      items := items + f.value.items;
      if f.value.number == f.value.pages {
        break;
      }
      currentPage := currentPage + 1;
    }
  }

  /** The instances of pages `lo` to `hi - 1`, concatenated in page order. */
  function Collected(fetch: Fetcher, lo: int, hi: int): seq<Resource>
    requires lo <= hi
    requires forall j :: lo <= j < hi ==> fetch(j).Ok?
    decreases hi - lo
  {
    if lo == hi then [] else fetch(lo).value.items + Collected(fetch, lo + 1, hi)
  }

  /** What `_iter` yields is the instances of every page it fetched without an
      exception, concatenated in fetch order; when it ends in an exception, that is
      the outcome of its last request; and every page before the last one it
      requested was fetched and was not the last page. */
  lemma {:induction false} IterConcatenates(fetch: Fetcher, maxPages: int, k: int, bound: int)
    requires 1 <= k
    requires maxPages > 0 || (k <= bound && Halts(fetch, bound))
    ensures var r := IterRun(fetch, maxPages, k, bound);
            var ok := if r.error.Some? then r.fetched - 1 else r.fetched;
            && 0 <= ok
            && (forall j :: k <= j < k + ok ==> fetch(j).Ok?)
            && r.items == Collected(fetch, k, k + ok)
            && (r.error.Some? ==> fetch(k + ok) == Err(r.error.value))
            && (forall j :: k <= j < k + r.fetched - 1 ==> !Stops(fetch(j)))
    decreases if maxPages > 0 then maxPages - k + 1 else bound - k
  {
    IterUnfold(fetch, maxPages, k, bound);
    if !(k > maxPages > 0) {
      var f := fetch(k);
      if f.Ok? && f.value.number != f.value.pages {
        IterConcatenates(fetch, maxPages, k + 1, bound);
        var rest := IterRun(fetch, maxPages, k + 1, bound);
        var restOk := if rest.error.Some? then rest.fetched - 1 else rest.fetched;
        assert Collected(fetch, k, k + 1 + restOk) == f.value.items + Collected(fetch, k + 1, k + 1 + restOk);
      }
    }
  }

  /** How `_iter` stops: when it finishes without an exception after requesting at
      least one page, the last page it requested is either a page whose number equals
      the page count or the page cap. Without a positive cap it always requests a
      page, and finishing means the last page it saw reported `number == pages`. */
  lemma {:induction false} IterStopsAtLast(fetch: Fetcher, maxPages: int, k: int, bound: int)
    requires 1 <= k
    requires maxPages > 0 || (k <= bound && Halts(fetch, bound))
    ensures var r := IterRun(fetch, maxPages, k, bound);
            && (r.error.None? && r.fetched > 0 ==>
                  var last := fetch(k + r.fetched - 1);
                  last.Ok? && (last.value.number == last.value.pages || k + r.fetched - 1 == maxPages))
            && (maxPages <= 0 ==> r.fetched >= 1)
            && (maxPages <= 0 && r.error.None? ==>
                  var last := fetch(k + r.fetched - 1);
                  last.Ok? && last.value.number == last.value.pages)
    decreases if maxPages > 0 then maxPages - k + 1 else bound - k
  {
    IterUnfold(fetch, maxPages, k, bound);
    if !(k > maxPages > 0) {
      var f := fetch(k);
      if f.Ok? && f.value.number != f.value.pages {
        IterStopsAtLast(fetch, maxPages, k + 1, bound);
        var rest := IterRun(fetch, maxPages, k + 1, bound);
        if maxPages > 0 && rest.fetched == 0 {
          assert k + 1 > maxPages;
        }
      }
    }
  }

  /** With `max_pages = 1`, `_iter` makes exactly one request and yields the entries of
      page 1 alone, whatever page count the server reports. */
  lemma FirstPageOnly(fetch: Fetcher, bound: int)
    requires fetch(1).Ok?
    ensures IterRun(fetch, 1, 1, bound) == Run(fetch(1).value.items, None, 1)
  {
    IterUnfold(fetch, 1, 1, bound);
    IterUnfold(fetch, 1, 2, bound);
  }

  // ---------------------------------------------------------------------------
  // PipelineDeals.fetch_iter

  /** The fixed inputs of one `fetch_iter` run: client, resource path and extra
      query parameters (the page size stays at its default). */
  datatype Feed = Feed(client: Client, apiPath: string, extra: map<string, Json>)

  /** The URL `fetch_iter` requests for page `page`. */
  function FeedUrl(f: Feed, page: int): Url {
    EndpointUrl(f.client, f.apiPath, RawId(Null), f.extra, true, page, DefaultPerPage)
  }

  /** Every page `fetch_iter` requests carries the API key, the extra parameters and
      the page parameters at the default page size of 200. */
  lemma FeedUrlQuery(f: Feed, page: int)
    ensures var u := FeedUrl(f, page);
            && u.query.Keys == {"api_key"} + f.extra.Keys + PageKeys
            && u.query["page"] == Num(page) && u.query["per_page"] == Num(200)
            && u.detail == None && u.apiPath == f.apiPath
  {
    EndpointQuery(f.client, f.apiPath, RawId(Null), f.extra, true, page, DefaultPerPage);
  }

  /** The server as `fetch_iter` sees it: the outcome of `_get` for each page number. */
  type Getter = int -> Result<Option<Json>, Error>

  /** The getter of a feed against a server. */
  function FeedGetter(server: Server, f: Feed): Getter {
    page => Execute(server, "get", FeedUrl(f, page), None)
  }

  /** What one successful response does to `fetch_iter`'s loop. */
  datatype Step =
    | Retry                                           // a falsy result: nothing changes
    | Broken(yielded: seq<Json>)                      // KeyError/TypeError after yielding `yielded`
    | Advance(entries: seq<Json>, page: int, pages: int)

  /** `if result:` then yield the entries, then read `pagination.pages` and
      `pagination.page`. */
  function Digest(result: Option<Json>): (d: Step)
    ensures d.Retry? <==> !(result.Some? && Truthy(result.value))
    ensures d.Advance? ==> && result.Some? && result.value.Obj?
                           && Entries(result.value.fields) == Some(d.entries)
                           && Pagination(result.value.fields) == Some((d.page, d.pages))
    ensures (&& result.Some? && result.value.Obj? && Truthy(result.value)
             && Entries(result.value.fields).Some? && Pagination(result.value.fields).Some?) ==> d.Advance?
    ensures d.Broken? ==> && result.Some?
                          && d.yielded == (if result.value.Obj? && Entries(result.value.fields).Some?
                                           then Entries(result.value.fields).value else [])
  {
    if !(result.Some? && Truthy(result.value)) then Retry
    else if !result.value.Obj? || Entries(result.value.fields).None? then Broken([])
    else if Pagination(result.value.fields).None? then Broken(Entries(result.value.fields).value)
    else
      var (page, pages) := Pagination(result.value.fields).value;
      Advance(Entries(result.value.fields).value, page, pages)
  }

  /** The loop condition `page <= pages`; None is the initial `float('inf')`. */
  predicate Continues(page: int, pages: Option<int>) {
    pages.None? || page <= pages.value
  }

  /** What a `fetch_iter` run amounts to: the raw entries yielded, the exception it
      ended with, the page numbers it requested in order, and whether it was still
      running when the iteration budget ran out. */
  datatype Sweep = Sweep(entries: seq<Json>, error: Option<Error>, requested: seq<int>, exhausted: bool)

  /** A run that requested the pages `requested`, yielded `entries`, and then
      continued as `rest`. */
  function Following(entries: seq<Json>, requested: seq<int>, rest: Sweep): Sweep {
    Sweep(entries + rest.entries, rest.error, requested + rest.requested, rest.exhausted)
  }

  /** Following a run in two steps is following it in one. */
  lemma FollowingTwice(e1: seq<Json>, r1: seq<int>, e2: seq<Json>, r2: seq<int>, rest: Sweep)
    ensures Following(e1, r1, Following(e2, r2, rest)) == Following(e1 + e2, r1 + r2, rest)
  {
    assert e1 + (e2 + rest.entries) == (e1 + e2) + rest.entries;
    assert r1 + (r2 + rest.requested) == (r1 + r2) + rest.requested;
  }

  /** Taking one step of a run off its remainder and onto what has been seen. */
  lemma Resume(seen: seq<Json>, before: seq<int>, yielded: seq<Json>, page: int, rest: Sweep, later: Sweep, whole: Sweep)
    requires Following(seen, before, rest) == whole
    requires rest == Following(yielded, [page], later)
    ensures Following(seen + yielded, before + [page], later) == whole
  {
    FollowingTwice(seen, before, yielded, [page], later);
  }

  /** `fetch_iter` from the state (`page`, `pages`), for at most `fuel` more passes of
      its loop. */
  function SweepRun(get: Getter, page: int, pages: Option<int>, fuel: nat): (r: Sweep)
    ensures |r.requested| <= fuel
    ensures r.exhausted ==> |r.requested| == fuel
    decreases fuel
  {
    if !Continues(page, pages) then Sweep([], None, [], false)
    else if fuel == 0 then Sweep([], None, [], true)
    else match get(page)
      case Err(e) => Sweep([], Some(e), [page], false)
      case Ok(result) =>
        match Digest(result)
        case Retry => Following([], [page], SweepRun(get, page, pages, fuel - 1))
        case Broken(yielded) => Sweep(yielded, Some(Malformed), [page], false)
        case Advance(entries, number, count) => Following(entries, [page], SweepRun(get, number + 1, Some(count), fuel - 1))
  }

  /** One pass of `SweepRun`, spelled out. */
  lemma SweepUnfold(get: Getter, page: int, pages: Option<int>, fuel: nat)
    requires Continues(page, pages) && fuel > 0
    ensures get(page).Err? ==> SweepRun(get, page, pages, fuel) == Sweep([], Some(get(page).error), [page], false)
    ensures get(page).Ok? ==>
              var d := Digest(get(page).value);
              && (d.Retry? ==> SweepRun(get, page, pages, fuel) == Following([], [page], SweepRun(get, page, pages, fuel - 1)))
              && (d.Broken? ==> SweepRun(get, page, pages, fuel) == Sweep(d.yielded, Some(Malformed), [page], false))
              && (d.Advance? ==> SweepRun(get, page, pages, fuel)
                                 == Following(d.entries, [page], SweepRun(get, d.page + 1, Some(d.pages), fuel - 1)))
  {
  }

  /** One pass of `fetch_iter`'s loop, seen from a run in progress: having yielded
      `seen` and requested `before`, the answer for `page` ends the run or carries it
      on from the next state. */
  lemma SweepStep(get: Getter, page: int, pages: Option<int>, fuel: nat,
                  seen: seq<Json>, before: seq<int>, whole: Sweep)
    requires Continues(page, pages) && fuel > 0
    requires Following(seen, before, SweepRun(get, page, pages, fuel)) == whole
    ensures get(page).Err? ==> Sweep(seen, Some(get(page).error), before + [page], false) == whole
    ensures get(page).Ok? ==>
              var d := Digest(get(page).value);
              && (d.Retry? ==> Following(seen, before + [page], SweepRun(get, page, pages, fuel - 1)) == whole)
              && (d.Broken? ==> Sweep(seen + d.yielded, Some(Malformed), before + [page], false) == whole)
              && (d.Advance? ==>
                    Following(seen + d.entries, before + [page], SweepRun(get, d.page + 1, Some(d.pages), fuel - 1)) == whole)
  {
    SweepUnfold(get, page, pages, fuel);
    assert seen + [] == seen;
    if get(page).Ok? {
      var d := Digest(get(page).value);
      if d.Retry? {
        Resume(seen, before, [], page, SweepRun(get, page, pages, fuel), SweepRun(get, page, pages, fuel - 1), whole);
      } else if d.Advance? {
        Resume(seen, before, d.entries, page, SweepRun(get, page, pages, fuel),
               SweepRun(get, d.page + 1, Some(d.pages), fuel - 1), whole);
      }
    }
  }

  /** `fetch_iter(api_path, extra_params)` as the loop the source runs, allowed at most
      `fuel` passes. It starts at page 1 with no known page count; `get(page)` is the
      `_get` of the endpoint for `page` (for a server and a feed, `FeedGetter`). */
  method FetchIter(get: Getter, fuel: nat)
    returns (entries: seq<Json>, error: Option<Error>, requested: seq<int>, exhausted: bool)
    ensures Sweep(entries, error, requested, exhausted) == SweepRun(get, 1, None, fuel)
    ensures |requested| <= fuel
  {
    ghost var whole := SweepRun(get, 1, None, fuel);
    entries, error, requested, exhausted := [], None, [], false;
    var page := 1;
    var pages: Option<int> := None;
    var left := fuel;
    while Continues(page, pages)
      invariant Following(entries, requested, SweepRun(get, page, pages, left)) == whole
      decreases left
    {
      if left == 0 {
        exhausted := true;
        return;
      }
      var result := get(page);
      SweepStep(get, page, pages, left, entries, requested, whole);
      left := left - 1;
      requested := requested + [page];
      if result.Err? {
        error := Some(result.error);
        return;
      }
      match Digest(result.value)
      case Retry =>
      case Broken(yielded) =>
        entries := entries + yielded;
        error := Some(Malformed);
        return;
      case Advance(yielded, number, count) =>
        entries := entries + yielded;
        pages := Some(count);
        page := number + 1;
    }
  }

  /** `fetch_iter(api_path, extra_params)` against a server: the loop above with the
      getter that requests `FeedUrl(f, page)` for each page. */
  method FetchFeed(server: Server, f: Feed, fuel: nat)
    returns (entries: seq<Json>, error: Option<Error>, requested: seq<int>, exhausted: bool)
    ensures Sweep(entries, error, requested, exhausted) == SweepRun(FeedGetter(server, f), 1, None, fuel)
    ensures |requested| <= fuel
  {
    entries, error, requested, exhausted := FetchIter(FeedGetter(server, f), fuel);
  }

  /** What the feed's getter answers for a page is the `_request` of a GET of that
      page's URL: the body on 2xx (None without content), else the exception. */
  lemma FeedGetterAnswers(server: Server, f: Feed, page: int)
    ensures var resp := server(Request("get", FeedUrl(f, page), None));
            var r := FeedGetter(server, f)(page);
            && (r.Ok? <==> 200 <= resp.status < 300)
            && (r.Ok? ==> r.value == if resp.contentLength != 0 then Some(resp.body) else None)
            && (r.Err? ==> r.error == HttpError(ExceptionFor(resp.status).value, resp))
  {
    assert "get" in Verbs;
  }

  /** The server answers page `k` with a listing body that reports page `k` of `n`. */
  predicate Honest(get: Getter, k: int, n: int) {
    && get(k).Ok?
    && Digest(get(k).value).Advance?
    && Digest(get(k).value).page == k
    && Digest(get(k).value).pages == n
  }

  /** The entries a listing body for page `k` carries (none when it has no listing shape). */
  function EntriesOf(get: Getter, k: int): seq<Json> {
    if get(k).Ok? && Digest(get(k).value).Advance? then Digest(get(k).value).entries else []
  }

  /** The entries of pages `lo` to `hi - 1`, concatenated in page order. */
  function Served(get: Getter, lo: int, hi: int): seq<Json>
    decreases hi - lo
  {
    if lo >= hi then [] else EntriesOf(get, lo) + Served(get, lo + 1, hi)
  }

  /** The page numbers `lo` to `hi - 1`, ascending. */
  function Range(lo: int, hi: int): (r: seq<int>)
    decreases hi - lo
  {
    if lo >= hi then [] else [lo] + Range(lo + 1, hi)
  }

  /** The same page number `n` times. */
  function Repeat(page: int, n: nat): seq<int> {
    if n == 0 then [] else [page] + Repeat(page, n - 1)
  }

  /** Against a server that reports its pages faithfully, `fetch_iter` requests pages
      `k` to `n` once each, in order, yields all their entries and then stops on its
      own (given enough passes). From `k = 1` and no known page count this is the
      whole run. */
  lemma {:induction false} SweepHonest(get: Getter, k: int, n: int, pages: Option<int>, fuel: nat)
    requires 1 <= k <= n
    requires pages == None || pages == Some(n)
    requires forall j :: k <= j <= n ==> Honest(get, j, n)
    requires fuel >= n - k + 1
    ensures SweepRun(get, k, pages, fuel) == Sweep(Served(get, k, n + 1), None, Range(k, n + 1), false)
    decreases n - k
  {
    assert Honest(get, k, n);
    SweepUnfold(get, k, pages, fuel);
    if k < n {
      SweepHonest(get, k + 1, n, Some(n), fuel - 1);
    }
  }

  /** The non-progress path: as long as the server keeps answering `page` with an
      empty (falsy) result — a `Getter` gives the same answer to the same request —
      `fetch_iter` asks for the same page again on every pass; it uses up any budget
      of passes without yielding anything. */
  lemma {:induction false} SweepStalls(get: Getter, page: int, pages: Option<int>, fuel: nat)
    requires Continues(page, pages)
    requires get(page).Ok? && Digest(get(page).value).Retry?
    ensures SweepRun(get, page, pages, fuel) == Sweep([], None, Repeat(page, fuel), true)
  {
    if fuel > 0 {
      SweepUnfold(get, page, pages, fuel);
      SweepStalls(get, page, pages, fuel - 1);
    }
  }

  /** A response that reports its page as the last (or beyond it) ends `fetch_iter`:
      nothing is requested after it. */
  lemma SweepStopsAtLast(get: Getter, page: int, pages: Option<int>, fuel: nat)
    requires Continues(page, pages) && fuel > 0
    requires get(page).Ok? && Digest(get(page).value).Advance?
    requires Digest(get(page).value).page >= Digest(get(page).value).pages
    ensures SweepRun(get, page, pages, fuel) == Sweep(Digest(get(page).value).entries, None, [page], false)
  {
    SweepUnfold(get, page, pages, fuel);
  }
}
