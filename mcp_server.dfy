/** The older standalone server: a static API key as bearer token, a GET
    helper that turns every failure into RuntimeError, and two list tools
    (devices, fleets) that follow `metadata.continue` and wrap each item in a
    context record. The base URL and the key are read from the environment
    at start-up and are inputs here; the backend is a sequence of responses,
    the i-th answering the i-th request. */
module McpServer {
  import opened Wrappers
  import opened Text
  import opened Errors
  import opened Wire
  import Pagination

  /** The two collections the server lists. */
  datatype ServerKind = Device | Fleet

  /** `resourceKind` of a context. */
  function KindName(k: ServerKind): string {
    if k == Device then "Device" else "Fleet"
  }

  /** The collection's path segment. */
  function Collection(k: ServerKind): string {
    if k == Device then "devices" else "fleets"
  }

  /** `API_BASE_URL` as the server keeps it. */
  function ServerBase(envValue: string): (b: string)
    ensures b == [] || b[|b| - 1] != '/'
  {
    RStripSlash(envValue)
  }

  /** `get_auth_headers`: fails when the key is unset or empty. */
  function AuthHeaders(apiKey: Option<string>): (r: Result<map<string, string>, Error>)
    ensures r.Err? <==> !Truthy(apiKey)
    ensures r.Err? ==> r.error == RuntimeError("API_KEY environment variable not set")
    ensures r.Ok? ==> r.value.Keys == {"Authorization", "Accept"}
    ensures r.Ok? ==> r.value["Authorization"] == "Bearer " + apiKey.value && r.value["Accept"] == "application/json"
  {
    if !Truthy(apiKey) then Err(RuntimeError("API_KEY environment variable not set"))
    else Ok(map["Authorization" := "Bearer " + apiKey.value, "Accept" := "application/json"])
  }

  /** The error `rest_get` raises for a failed request to `url`: a bad
      status names the status and the body, anything else the exception. */
  function RestGetError(url: string, resp: GetResponse): (e: Error)
    requires !resp.Success?
    ensures e.RuntimeError?
    ensures resp.HttpStatusError? ==>
      e.message == "HTTP error " + NatToString(resp.status) + " for " + url + ": " + resp.text
    ensures !resp.HttpStatusError? ==> e.message == "Error requesting " + url + ": " + resp.detail
  {
    match resp
    case HttpStatusError(status, _, text, _) =>
      RuntimeError("HTTP error " + NatToString(status) + " for " + url + ": " + text)
    case NetworkFailure(detail) => RuntimeError("Error requesting " + url + ": " + detail)
    case InvalidJson(detail) => RuntimeError("Error requesting " + url + ": " + detail)
    case UnexpectedFailure(detail) => RuntimeError("Error requesting " + url + ": " + detail)
  }

  /** One GET as the server sends it (always without TLS verification and
      with a 30 second timeout, which the model does not parameterise). */
  datatype ServerRequest = ServerRequest(url: string, headers: map<string, string>, params: map<string, string>)

  /** What one `rest_get` call returns or raises, and the request it sent. */
  datatype Fetch = Fetch(result: Result<ListBody, Error>, request: Option<ServerRequest>)

  /** The headers of a valid key; empty for a key that does not check out. */
  function HeadersOf(apiKey: Option<string>): map<string, string> {
    if AuthHeaders(apiKey).Ok? then AuthHeaders(apiKey).value else map[]
  }

  /** `rest_get(path, params)` against `url`, answered by `resp`: a bad key
      raises before anything is sent; otherwise the request goes out and a
      failed response becomes RuntimeError. */
  function RestGet(url: string, apiKey: Option<string>, params: map<string, string>, resp: GetResponse): (f: Fetch)
    ensures f.request.Some? <==> Truthy(apiKey)
    ensures f.request.Some? ==> f.request.value == ServerRequest(url, HeadersOf(apiKey), params)
    ensures !Truthy(apiKey) ==> f.result == Err(RuntimeError("API_KEY environment variable not set"))
    ensures Truthy(apiKey) ==> f.result == if resp.Success? then Ok(resp.body) else Err(RestGetError(url, resp))
  {
    var headers := AuthHeaders(apiKey);
    if headers.Err? then Fetch(Err(headers.error), None)
    else
      var request := ServerRequest(url, headers.value, params);
      if resp.Success? then Fetch(Ok(resp.body), Some(request))
      else Fetch(Err(RestGetError(url, resp)), Some(request))
  }

  datatype Link = Link(rel: string, href: string)

  /** The record a tool returns per backend item. */
  datatype Context = Context(
    resourceKind: string,
    resourceName: Option<string>,
    data: Resource,
    links: seq<Link>,
    created: Option<string>,
    lastUpdated: Option<string>)

  /** `device.get("metadata", {})` */
  function MetadataOf(item: Resource): Metadata {
    item.metadata.GetOr(Metadata(None, None, None))
  }

  /** The context of one item: its kind, its name, the item itself, a self
      link under `/v1/<collection>/` (with "None" for a missing name, as the
      f-string renders it), and the two timestamps. */
  function ToContext(k: ServerKind, item: Resource): (c: Context)
    ensures c.resourceKind == KindName(k) && c.data == item
    ensures c.resourceName == MetadataOf(item).name
    ensures c.links == [Link("self", "/v1/" + Collection(k) + "/" + PyStr(MetadataOf(item).name))]
    ensures c.created == MetadataOf(item).creationTimestamp && c.lastUpdated == MetadataOf(item).updateTimestamp
  {
    var m := MetadataOf(item);
    Context(KindName(k), m.name, item, [Link("self", "/v1/" + Collection(k) + "/" + PyStr(m.name))],
            m.creationTimestamp, m.updateTimestamp)
  }

  /** The contexts of a list of items, one per item, in order. */
  function ContextsOf(k: ServerKind, items: seq<Resource>): (cs: seq<Context>)
    ensures |cs| == |items|
  {
    seq(|items|, i requires 0 <= i < |items| => ToContext(k, items[i]))
  }

  /** Context i is the wrapping of item i. */
  lemma ContextsOfItems(k: ServerKind, items: seq<Resource>)
    ensures forall i :: 0 <= i < |items| ==> ContextsOf(k, items)[i] == ToContext(k, items[i])
  {
  }

  /** `resp.get("metadata", {}).get("continue")` */
  function MetaCursor(r: GetResponse): Option<string> {
    if r.Success? && r.body.metadata.Some? then r.body.metadata.value.continueToken else None
  }

  // -----------------------------------------------------------------------
  // Reference

  /** The parameters every request starts from: the limit, always, and each
      selector when it is not empty. */
  function BaseParams(labelSelector: string, fieldSelector: string, limit: int): (p: map<string, string>)
    ensures "limit" in p && p["limit"] == IntToString(limit)
    ensures "labelSelector" in p <==> labelSelector != ""
    ensures "labelSelector" in p ==> p["labelSelector"] == labelSelector
    ensures "fieldSelector" in p <==> fieldSelector != ""
    ensures "fieldSelector" in p ==> p["fieldSelector"] == fieldSelector
    ensures p.Keys <= {"limit", "labelSelector", "fieldSelector"}
  {
    var p0 := map["limit" := IntToString(limit)];
    var p1 := if labelSelector != "" then p0["labelSelector" := labelSelector] else p0;
    if fieldSelector != "" then p1["fieldSelector" := fieldSelector] else p1
  }

  /** The parameters of request j: the base ones, plus the cursor of page
      j - 1 once there is one. */
  function ParamsAt(base: map<string, string>, pages: seq<GetResponse>, j: nat): map<string, string>
    requires j <= |pages|
  {
    if j > 0 && Truthy(MetaCursor(pages[j - 1])) then base["continue" := MetaCursor(pages[j - 1]).value] else base
  }

  /** After page j the tool asks for page j + 1. */
  predicate GoesOn(pages: seq<GetResponse>, j: nat)
    requires j < |pages|
  {
    pages[j].Success? && Truthy(MetaCursor(pages[j]))
  }

  /** The backend eventually fails or answers without a cursor. */
  predicate ServerEndsTerminal(pages: seq<GetResponse>) {
    pages != [] && !GoesOn(pages, |pages| - 1)
  }

  /** The first page at or after i after which the tool stops. */
  function ServerStopFrom(pages: seq<GetResponse>, i: nat): (k: nat)
    requires ServerEndsTerminal(pages) && i < |pages|
    ensures i <= k < |pages| && !GoesOn(pages, k)
    ensures forall j :: i <= j < k ==> GoesOn(pages, j)
    decreases |pages| - i
  {
    if !GoesOn(pages, i) then i else ServerStopFrom(pages, i + 1)
  }

  /** The index of the last page the tool requests. */
  function ServerStop(pages: seq<GetResponse>): (k: nat)
    requires ServerEndsTerminal(pages)
    ensures k < |pages| && !GoesOn(pages, k)
    ensures forall j :: 0 <= j < k ==> GoesOn(pages, j)
  {
    ServerStopFrom(pages, 0)
  }

  /** The contexts of the items of the first n pages. */
  function Contexts(k: ServerKind, pages: seq<GetResponse>, n: nat): seq<Context>
    requires n <= |pages|
  {
    if n == 0 then [] else Contexts(k, pages, n - 1) + ContextsOf(k, PageItems(pages[n - 1]))
  }

  /** The requests of the first n pages. */
  function ServerRequests(url: string, headers: map<string, string>, base: map<string, string>, pages: seq<GetResponse>, n: nat): (rs: seq<ServerRequest>)
    requires n <= |pages|
    ensures |rs| == n
  {
    if n == 0 then [] else ServerRequests(url, headers, base, pages, n - 1) + [ServerRequest(url, headers, ParamsAt(base, pages, n - 1))]
  }

  /** The URL of a collection. */
  function ListUrl(baseUrl: string, k: ServerKind): string {
    baseUrl + ("/api/v1/" + Collection(k))
  }

  /** What the cursor walk over `url` returns: the key error before any
      request, or the stopping page's error, or every context of every page
      read. */
  function WalkOutcome(k: ServerKind, url: string, apiKey: Option<string>, pages: seq<GetResponse>): Result<seq<Context>, Error>
    requires ServerEndsTerminal(pages)
  {
    var stop := ServerStop(pages);
    if !Truthy(apiKey) then Err(RuntimeError("API_KEY environment variable not set"))
    else if !pages[stop].Success? then Err(RestGetError(url, pages[stop]))
    else Ok(Contexts(k, pages, stop + 1))
  }

  /** What the cursor walk sends, starting from the parameters `base`. */
  function WalkSent(url: string, apiKey: Option<string>, base: map<string, string>, pages: seq<GetResponse>): seq<ServerRequest>
    requires ServerEndsTerminal(pages)
  {
    if !Truthy(apiKey) then []
    else ServerRequests(url, HeadersOf(apiKey), base, pages, ServerStop(pages) + 1)
  }

  /** What a tool returns. */
  function ServerOutcome(k: ServerKind, baseUrl: string, apiKey: Option<string>, pages: seq<GetResponse>): Result<seq<Context>, Error>
    requires ServerEndsTerminal(pages)
  {
    WalkOutcome(k, ListUrl(baseUrl, k), apiKey, pages)
  }

  /** What a tool sends. */
  function ServerSent(k: ServerKind, baseUrl: string, apiKey: Option<string>, labelSelector: string, fieldSelector: string,
                      limit: int, pages: seq<GetResponse>): seq<ServerRequest>
    requires ServerEndsTerminal(pages)
  {
    WalkSent(ListUrl(baseUrl, k), apiKey, BaseParams(labelSelector, fieldSelector, limit), pages)
  }

  lemma ServerStopsAtFirstHalt(pages: seq<GetResponse>, i: nat)
    requires ServerEndsTerminal(pages) && i <= ServerStop(pages)
    requires !GoesOn(pages, i)
    ensures i == ServerStop(pages)
  {
  }

  // -----------------------------------------------------------------------
  // The tools

  /** The shared body of `query_devices` and `query_fleets`: the params map
      is built once, then the cursor walk runs. */
  method QueryKind(k: ServerKind, baseUrl: string, apiKey: Option<string>, labelSelector: string, fieldSelector: string,
                   limit: int, pages: seq<GetResponse>)
    returns (r: Result<seq<Context>, Error>, sent: seq<ServerRequest>)
    requires ServerEndsTerminal(pages)
    ensures r == ServerOutcome(k, baseUrl, apiKey, pages)
    ensures sent == ServerSent(k, baseUrl, apiKey, labelSelector, fieldSelector, limit, pages)
  {
    var path := "/api/v1/" + Collection(k);
    var params := map["limit" := IntToString(limit)];
    if labelSelector != "" {
      params := params["labelSelector" := labelSelector];
    }
    if fieldSelector != "" {
      params := params["fieldSelector" := fieldSelector];
    }
    assert params == BaseParams(labelSelector, fieldSelector, limit);
    r, sent := WalkPages(k, baseUrl + path, apiKey, params, pages);
  }

  /** The `while True` loop: the params map is updated in place with each
      new cursor, `rest_get` builds the headers and sends, and every item of
      every page is wrapped and appended. */
  method WalkPages(k: ServerKind, url: string, apiKey: Option<string>, params: map<string, string>, pages: seq<GetResponse>)
    returns (r: Result<seq<Context>, Error>, sent: seq<ServerRequest>)
    requires ServerEndsTerminal(pages) && "continue" !in params
    ensures r == WalkOutcome(k, url, apiKey, pages)
    ensures sent == WalkSent(url, apiKey, params, pages)
  {
    var current := params;
    var all: seq<Context> := [];
    var cursor: Option<string> := None;
    var i: nat := 0;
    sent := [];
    ghost var stop := ServerStop(pages);
    ghost var headers := HeadersOf(apiKey);
    while true
      invariant i <= stop
      invariant i > 0 ==> Truthy(apiKey)
      invariant cursor == CursorBeforePage(pages, i)
      invariant current == ParamsBefore(params, pages, i)
      invariant all == Contexts(k, pages, i)
      invariant sent == ServerRequests(url, headers, params, pages, i)
      decreases stop - i
    {
      if Truthy(cursor) {
        current := current["continue" := cursor.value];
      }
      ParamsStep(params, pages, i);
      var got := RestGet(url, apiKey, current, pages[i]);
      if got.request.Some? {
        sent := sent + [got.request.value];
      }
      if got.result.Err? {
        if Truthy(apiKey) {
          ServerStopsAtFirstHalt(pages, i);
        }
        return Err(got.result.error), sent;
      }
      all := AppendContexts(k, all, got.result.value.items.GetOr([]));
      cursor := MetaCursor(pages[i]);
      if !Truthy(cursor) {
        ServerStopsAtFirstHalt(pages, i);
        break;
      }
      i := i + 1;
    }
    r := Ok(all);
  }

  /** The cursor variable when request i is about to be built. */
  function CursorBeforePage(pages: seq<GetResponse>, i: nat): Option<string>
    requires i <= |pages|
  {
    if i == 0 then None else MetaCursor(pages[i - 1])
  }

  /** The params map when request i is about to be built: it still holds the
      cursor written for request i - 1. */
  function ParamsBefore(base: map<string, string>, pages: seq<GetResponse>, i: nat): map<string, string>
    requires i <= |pages|
  {
    if i == 0 then base else ParamsAt(base, pages, i - 1)
  }

  /** Writing the current cursor, if any, into the map gives request i's
      parameters, provided every earlier page carried a cursor. */
  lemma ParamsStep(base: map<string, string>, pages: seq<GetResponse>, i: nat)
    requires i < |pages| && "continue" !in base
    requires forall j :: 0 <= j < i ==> GoesOn(pages, j)
    ensures var c := CursorBeforePage(pages, i);
      (if Truthy(c) then ParamsBefore(base, pages, i)["continue" := c.value] else ParamsBefore(base, pages, i))
        == ParamsAt(base, pages, i)
  {
    if i > 0 {
      assert GoesOn(pages, i - 1);
      var c := MetaCursor(pages[i - 1]).value;
      if i > 1 {
        assert GoesOn(pages, i - 2);
        var earlier := base["continue" := MetaCursor(pages[i - 2]).value];
        assert earlier["continue" := c] == base["continue" := c];
      }
    }
  }

  /** The inner `for` loop: wrap each item of a page and append it. */
  method AppendContexts(k: ServerKind, all: seq<Context>, items: seq<Resource>) returns (out: seq<Context>)
    ensures out == all + ContextsOf(k, items)
  {
    out := all;
    var j := 0;
    while j < |items|
      invariant 0 <= j <= |items|
      invariant out == all + ContextsOf(k, items[..j])
    {
      assert ContextsOf(k, items[..j + 1]) == ContextsOf(k, items[..j]) + [ToContext(k, items[j])];
      out := out + [ToContext(k, items[j])];
      j := j + 1;
    }
    assert items[..j] == items;
  }

  /** `query_devices`; `apiBaseUrlEnv` is `API_BASE_URL` as the environment
      holds it, which the module right-strips of '/' once at import. */
  method QueryDevices(apiBaseUrlEnv: string, apiKey: Option<string>, labelSelector: string, fieldSelector: string,
                      limit: int, pages: seq<GetResponse>)
    returns (r: Result<seq<Context>, Error>, sent: seq<ServerRequest>)
    requires ServerEndsTerminal(pages)
    ensures r == ServerOutcome(Device, ServerBase(apiBaseUrlEnv), apiKey, pages)
    ensures sent == ServerSent(Device, ServerBase(apiBaseUrlEnv), apiKey, labelSelector, fieldSelector, limit, pages)
  {
    r, sent := QueryKind(Device, ServerBase(apiBaseUrlEnv), apiKey, labelSelector, fieldSelector, limit, pages);
  }

  /** `query_fleets`, on the same base URL as `QueryDevices`. */
  method QueryFleets(apiBaseUrlEnv: string, apiKey: Option<string>, labelSelector: string, fieldSelector: string,
                     limit: int, pages: seq<GetResponse>)
    returns (r: Result<seq<Context>, Error>, sent: seq<ServerRequest>)
    requires ServerEndsTerminal(pages)
    ensures r == ServerOutcome(Fleet, ServerBase(apiBaseUrlEnv), apiKey, pages)
    ensures sent == ServerSent(Fleet, ServerBase(apiBaseUrlEnv), apiKey, labelSelector, fieldSelector, limit, pages)
  {
    r, sent := QueryKind(Fleet, ServerBase(apiBaseUrlEnv), apiKey, labelSelector, fieldSelector, limit, pages);
  }

  // -----------------------------------------------------------------------
  // Properties of the reference

  /** Wrapping distributes over concatenation. */
  lemma ContextsOfAppend(k: ServerKind, a: seq<Resource>, b: seq<Resource>)
    ensures ContextsOf(k, a + b) == ContextsOf(k, a) + ContextsOf(k, b)
  {
    assert forall i :: 0 <= i < |a| + |b| ==> (a + b)[i] == if i < |a| then a[i] else b[i - |a|];
  }

  /** Exactly one context per backend item, in page order then item order. */
  lemma {:induction false} ContextsMatchItems(k: ServerKind, pages: seq<GetResponse>, n: nat)
    requires n <= |pages|
    ensures Contexts(k, pages, n) == ContextsOf(k, Collected(pages, n))
  {
    if n > 0 {
      ContextsMatchItems(k, pages, n - 1);
      ContextsOfAppend(k, Collected(pages, n - 1), PageItems(pages[n - 1]));
    } else {
      assert ContextsOf(k, []) == [];
    }
  }

  /** The limit only sizes pages: a successful result holds every item of
      every page read, whatever the limit, and the walk ends at the first
      page whose `metadata.continue` is missing or empty. */
  lemma NoTruncation(k: ServerKind, baseUrl: string, apiKey: Option<string>, pages: seq<GetResponse>)
    requires ServerEndsTerminal(pages)
    ensures var stop := ServerStop(pages);
      ServerOutcome(k, baseUrl, apiKey, pages).Ok? ==>
        && |ServerOutcome(k, baseUrl, apiKey, pages).value| == |Collected(pages, stop + 1)|
        && !Truthy(MetaCursor(pages[stop]))
        && forall j :: 0 <= j < stop ==> Truthy(MetaCursor(pages[j]))
  {
    ContextsMatchItems(k, pages, ServerStop(pages) + 1);
    forall j | 0 <= j < ServerStop(pages)
      ensures Truthy(MetaCursor(pages[j]))
    {
      assert GoesOn(pages, j);
    }
  }

  /** Every request targets the collection URL with the key headers and
      carries the limit and the non-empty selectors; the first carries no
      cursor, and request j > 0 the `metadata.continue` of page j - 1. */
  predicate ServerRequestShape(url: string, headers: map<string, string>, labelSelector: string, fieldSelector: string,
                               limit: int, pages: seq<GetResponse>, r: ServerRequest, j: nat)
    requires j <= |pages|
  {
    && r.url == url && r.headers == headers
    && "limit" in r.params && r.params["limit"] == IntToString(limit)
    && ("labelSelector" in r.params <==> labelSelector != "")
    && ("fieldSelector" in r.params <==> fieldSelector != "")
    && ("continue" in r.params <==> j > 0)
    && (j > 0 ==> Some(r.params["continue"]) == MetaCursor(pages[j - 1]))
  }

  lemma {:induction false} ServerRequestsShape(url: string, headers: map<string, string>, labelSelector: string, fieldSelector: string,
                                               limit: int, pages: seq<GetResponse>, n: nat)
    requires n <= |pages|
    requires forall j :: 0 <= j < n - 1 ==> GoesOn(pages, j)
    ensures forall j :: 0 <= j < n ==>
      ServerRequestShape(url, headers, labelSelector, fieldSelector, limit, pages,
                         ServerRequests(url, headers, BaseParams(labelSelector, fieldSelector, limit), pages, n)[j], j)
  {
    if n > 0 {
      var base := BaseParams(labelSelector, fieldSelector, limit);
      ServerRequestsShape(url, headers, labelSelector, fieldSelector, limit, pages, n - 1);
      var rs := ServerRequests(url, headers, base, pages, n);
      var prev := ServerRequests(url, headers, base, pages, n - 1);
      assert forall j :: 0 <= j < n - 1 ==> rs[j] == prev[j];
      if n > 1 {
        assert GoesOn(pages, n - 2);
      }
      assert ServerRequestShape(url, headers, labelSelector, fieldSelector, limit, pages, rs[n - 1], n - 1);
    }
  }

  /** The two list engines read the cursor from different places: a page
      that carries only a top-level `continue` ends this server's walk but
      not the client's. */
  lemma CursorLocationsDiffer(items: seq<Resource>, token: string)
    requires token != ""
    ensures var page := Success(ListBody(Some(items), Some(token), None));
      !GoesOn([page], 0) && Pagination.Continues(Pagination.Query("devices", None, None, None), [page, page], 0)
  {
  }
}
