/**
 * What the legacy REST modules (datasets, treelists, fuelgrids) share: each
 * call builds a request against a URL under the API root, checks the
 * response's status code against the one it expects, and raises `HTTPError`
 * on any other. Collection URLs carry at most one filter in their query.
 */
module Legacy {
  import opened Values
  import opened Polling
  import opened Resources

  /** HTTP verbs the legacy modules use. */
  datatype Verb = GET | POST | PUT | PATCH | DELETE

  /** A request: verb, full URL and JSON body (if any). */
  datatype Request = Request(verb: Verb, url: string, body: Option<Json>)

  /** A response: status code and the decoded resource. */
  datatype HttpResponse = HttpResponse(status: int, body: Snapshot)

  /** What a legacy call did: the request it sent (none when argument validation failed first) and its result. */
  datatype Exchange<+T> = Exchange(request: Option<Request>, result: Result<T>)

  /**
   * A method call on a legacy handle: the request it sent (none when the
   * arguments were refused first), the handle afterwards, and what it
   * returned or raised.
   */
  datatype HandleCall = HandleCall(request: Option<Request>, self: Handle, result: Result<Option<Handle>>)

  /** The status every read, update and delete expects. */
  const Ok200 := 200
  /** The status every create expects. */
  const Created201 := 201

  /**
   * `if response.status_code != expected: raise HTTPError(...)`, then the
   * resource is built from the body.
   */
  function Checked(expected: int, r: HttpResponse): (f: Fetch)
    ensures f.Got? <==> r.status == expected
    ensures f.Got? ==> f.snapshot == r.body
    ensures f.Raised? ==> f.error == HttpStatus(r.status)
  {
    if r.status != expected then Raised(HttpStatus(r.status)) else Got(r.body)
  }

  /** A fetch as the result of a call. */
  function FetchResult(f: Fetch): (r: Result<Snapshot>)
    ensures r.Ok? <==> f.Got?
    ensures r.Ok? ==> r.value == f.snapshot
    ensures r.Err? ==> r.error == ApiFailure(f.error)
  {
    match f
    case Got(s) => Ok(s)
    case Raised(e) => Err(ApiFailure(e))
  }

  /** The filter a collection URL carries in its query. */
  datatype Filter = All | ByDataset(datasetId: string) | ByTreelist(treelistId: string)

  const DatasetQuery := "?dataset_id="
  const TreelistQuery := "?treelist_id="

  /** The URL of a collection (e.g. `{API_URL}/fuelgrids`) with its filter. */
  function CollectionUrl(base: string, f: Filter): (url: string)
    ensures base <= url
    ensures f.All? <==> url == base
  {
    match f
    case All => base
    case ByDataset(d) => base + DatasetQuery + d
    case ByTreelist(t) => base + TreelistQuery + t
  }

  /** Reads the filter back out of a collection URL. */
  function ParseCollectionUrl(base: string, url: string): (f: Option<Filter>)
  {
    if !(base <= url) then None
    else
      var rest := url[|base|..];
      if rest == "" then Some(All)
      else if DatasetQuery <= rest then Some(ByDataset(rest[|DatasetQuery|..]))
      else if TreelistQuery <= rest then Some(ByTreelist(rest[|TreelistQuery|..]))
      else None
  }

  /** The filter a collection URL was built with can always be recovered from it. */
  lemma CollectionUrlRoundTrip(base: string, f: Filter)
    ensures ParseCollectionUrl(base, CollectionUrl(base, f)) == Some(f)
  {
    var url := CollectionUrl(base, f);
    match f
    case All =>
      assert url[|base|..] == "";
    case ByDataset(d) =>
      assert url[|base|..] == DatasetQuery + d;
      assert (DatasetQuery + d)[|DatasetQuery|..] == d;
    case ByTreelist(t) =>
      assert url[|base|..] == TreelistQuery + t;
      assert (TreelistQuery + t)[1] == 't' != DatasetQuery[1];
      assert (TreelistQuery + t)[|TreelistQuery|..] == t;
  }

  /** Different filters give different URLs. */
  lemma CollectionUrlInjective(base: string, f: Filter, g: Filter)
    requires CollectionUrl(base, f) == CollectionUrl(base, g)
    ensures f == g
  {
    CollectionUrlRoundTrip(base, f);
    CollectionUrlRoundTrip(base, g);
  }
}
