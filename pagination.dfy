/** The paginated list query of FlightControlClient (`_query_resources`):
    one GET per page of `{api}/api/v1/{resource}`, following the top-level
    `continue` cursor, collecting `items` in order, stopping early once an
    optional limit is reached, and turning every failed request into an
    AuthenticationError or APIError. The backend is a sequence of responses,
    the i-th answering the i-th request. */
module Pagination {
  import opened Wrappers
  import opened Text
  import opened Errors
  import opened Wire
  import opened Config

  /** One GET as it leaves the client. */
  datatype Request = Request(url: string, headers: map<string, string>, params: map<string, string>, verify: SslVerify)

  /** The arguments of one query: the resource path segment and the optional
      selectors and limit. */
  datatype Query = Query(resource: string, labelSelector: Option<string>, fieldSelector: Option<string>, limit: Option<int>)

  /** The query parameters of one page: each selector only when it is a
      non-empty string, the cursor only when there is a non-empty one, and
      never a page size. */
  function PageParams(q: Query, cursor: Option<string>): (p: map<string, string>)
    ensures p.Keys <= {"labelSelector", "fieldSelector", "continue"}
    ensures "labelSelector" in p <==> Truthy(q.labelSelector)
    ensures "labelSelector" in p ==> p["labelSelector"] == q.labelSelector.value
    ensures "fieldSelector" in p <==> Truthy(q.fieldSelector)
    ensures "fieldSelector" in p ==> p["fieldSelector"] == q.fieldSelector.value
    ensures "continue" in p <==> Truthy(cursor)
    ensures "continue" in p ==> p["continue"] == cursor.value
  {
    var p0: map<string, string> := map[];
    var p1 := if Truthy(q.labelSelector) then p0["labelSelector" := q.labelSelector.value] else p0;
    var p2 := if Truthy(q.fieldSelector) then p1["fieldSelector" := q.fieldSelector.value] else p1;
    if Truthy(cursor) then p2["continue" := cursor.value] else p2
  }

  /** `limit and len(items) >= limit`: a limit of 0 (or none) never stops the
      walk, and a negative one stops it after the first page. */
  predicate LimitReached(limit: Option<int>, count: nat) {
    limit.Some? && limit.value != 0 && count >= limit.value
  }

  /** Python's `s[:k]`: a negative `k` counts from the end. */
  function PyPrefix<T>(s: seq<T>, k: int): (r: seq<T>)
    ensures r <= s
    ensures 0 <= k ==> |r| == if k < |s| then k else |s|
    ensures k < 0 ==> |r| == if |s| + k < 0 then 0 else |s| + k
  {
    if 0 <= k then (if k < |s| then s[..k] else s)
    else if |s| + k < 0 then [] else s[..|s| + k]
  }

  /** The error a failed page request raises. */
  function PageError(resource: string, r: GetResponse): (e: Error)
    requires !r.Success?
    ensures e.AuthenticationError? || e.APIError?
    ensures e.AuthenticationError? <==> r.HttpStatusError? && r.status == 401
    ensures e.APIError? ==> (e.statusCode.Some? <==> r.HttpStatusError?)
    ensures e.APIError? && e.statusCode.Some? ==> e.statusCode.value == r.status
    ensures e.APIError? ==> (e.responseText.Some? <==> r.HttpStatusError? && r.status !in {401, 403, 404})
    ensures e.APIError? && e.responseText.Some? ==> e.responseText.value == r.text
  {
    match r
    case HttpStatusError(status, _, text, detail) =>
      if status == 401 then AuthenticationError("Authentication failed for " + resource + " query: " + detail)
      else if status == 403 then APIError("Access denied for " + resource + " query: " + detail, Some(status), None)
      else if status == 404 then APIError("Resource not found: " + resource, Some(status), None)
      else APIError("Failed to query " + resource + ": HTTP " + NatToString(status), Some(status), Some(text))
    case NetworkFailure(detail) => APIError("Network error querying " + resource + ": " + detail, None, None)
    case InvalidJson(detail) => APIError("Invalid JSON response from " + resource + ": " + detail, None, None)
    case UnexpectedFailure(detail) => APIError("Unexpected error querying " + resource + ": " + detail, None, None)
  }

  /** The top-level `continue` of a page, None for a failed request. */
  function PageCursor(r: GetResponse): Option<string> {
    if r.Success? then r.body.continueToken else None
  }

  /** The cursor the j-th request carries. */
  function CursorBefore(pages: seq<GetResponse>, j: nat): Option<string>
    requires j <= |pages|
  {
    if j == 0 then None else PageCursor(pages[j - 1])
  }

  // -----------------------------------------------------------------------
  // Reference: where the walk stops and what it returns

  /** After page j the walk asks for page j + 1. */
  predicate Continues(q: Query, pages: seq<GetResponse>, j: nat)
    requires j < |pages|
  {
    && pages[j].Success?
    && !LimitReached(q.limit, |Collected(pages, j + 1)|)
    && Truthy(pages[j].body.continueToken)
  }

  /** The backend eventually answers a page with no further cursor, or fails. */
  predicate EndsTerminal(pages: seq<GetResponse>) {
    pages != [] && !(pages[|pages| - 1].Success? && Truthy(pages[|pages| - 1].body.continueToken))
  }

  /** The first page at or after `i` after which the walk does not go on. */
  function StopFrom(q: Query, pages: seq<GetResponse>, i: nat): (k: nat)
    requires EndsTerminal(pages) && i < |pages|
    ensures i <= k < |pages| && !Continues(q, pages, k)
    ensures forall j :: i <= j < k ==> Continues(q, pages, j)
    decreases |pages| - i
  {
    if !Continues(q, pages, i) || i == |pages| - 1 then i else StopFrom(q, pages, i + 1)
  }

  /** The index of the last page the walk requests. */
  function StopIndex(q: Query, pages: seq<GetResponse>): (k: nat)
    requires EndsTerminal(pages)
    ensures k < |pages| && !Continues(q, pages, k)
    ensures forall j :: 0 <= j < k ==> Continues(q, pages, j)
  {
    StopFrom(q, pages, 0)
  }

  /** What the walk returns when it stops after page k. */
  function Outcome(q: Query, pages: seq<GetResponse>, k: nat): Result<seq<Resource>, Error>
    requires k < |pages|
  {
    if !pages[k].Success? then Err(PageError(q.resource, pages[k]))
    else if LimitReached(q.limit, |Collected(pages, k + 1)|) then Ok(PyPrefix(Collected(pages, k + 1), q.limit.value))
    else Ok(Collected(pages, k + 1))
  }

  /** The requests of the first n pages. */
  function Requests(url: string, headers: map<string, string>, verify: SslVerify, q: Query, pages: seq<GetResponse>, n: nat): (rs: seq<Request>)
    requires n <= |pages|
    ensures |rs| == n
  {
    if n == 0 then []
    else Requests(url, headers, verify, q, pages, n - 1) + [Request(url, headers, PageParams(q, CursorBefore(pages, n - 1)), verify)]
  }

  /** The first page after which the walk does not go on is where it stops. */
  lemma StopsAtFirstHalt(q: Query, pages: seq<GetResponse>, i: nat)
    requires EndsTerminal(pages) && i <= StopIndex(q, pages)
    requires !Continues(q, pages, i)
    ensures i == StopIndex(q, pages)
  {
  }

  // -----------------------------------------------------------------------
  // The walk

  /** The `while True` loop of `_query_resources`, after the headers are
      built: it sends exactly the requests up to the stopping page and
      returns that page's outcome. */
  method Paginate(url: string, headers: map<string, string>, verify: SslVerify, q: Query, pages: seq<GetResponse>)
    returns (result: Result<seq<Resource>, Error>, sent: seq<Request>)
    requires EndsTerminal(pages)
    ensures result == Outcome(q, pages, StopIndex(q, pages))
    ensures sent == Requests(url, headers, verify, q, pages, StopIndex(q, pages) + 1)
  {
    var items: seq<Resource> := [];
    var cursor: Option<string> := None;
    var i: nat := 0;
    sent := [];
    while true
      invariant i <= StopIndex(q, pages)
      invariant items == Collected(pages, i)
      invariant cursor == CursorBefore(pages, i)
      invariant sent == Requests(url, headers, verify, q, pages, i)
      decreases StopIndex(q, pages) - i
    {
      var params := PageParams(q, cursor);
      sent := sent + [Request(url, headers, params, verify)];
      var resp := pages[i];
      if !resp.Success? {
        StopsAtFirstHalt(q, pages, i);
        result := Err(PageError(q.resource, resp));
        return;
      }
      items := items + resp.body.items.GetOr([]);
      if LimitReached(q.limit, |items|) {
        StopsAtFirstHalt(q, pages, i);
        result := Ok(PyPrefix(items, q.limit.value));
        return;
      }
      cursor := resp.body.continueToken;
      if !Truthy(cursor) {
        StopsAtFirstHalt(q, pages, i);
        break;
      }
      i := i + 1;
    }
    result := Ok(items);
  }

  // -----------------------------------------------------------------------
  // Properties of the reference

  /** Whatever the walk returns is a prefix of the items of the pages it
      read, in order; an error is the stopping page's error, and every
      earlier page succeeded and carried a cursor. */
  lemma OutcomeIsPrefixOfPages(q: Query, pages: seq<GetResponse>)
    requires EndsTerminal(pages)
    ensures var k := StopIndex(q, pages);
      match Outcome(q, pages, k)
      case Ok(r) => r <= Collected(pages, k + 1) && pages[k].Success?
      case Err(e) => !pages[k].Success? && e == PageError(q.resource, pages[k])
    ensures forall j :: 0 <= j < StopIndex(q, pages) ==> pages[j].Success? && Truthy(PageCursor(pages[j]))
  {
    forall j | 0 <= j < StopIndex(q, pages)
      ensures pages[j].Success? && Truthy(PageCursor(pages[j]))
    {
      assert Continues(q, pages, j);
    }
  }

  /** Without a limit (or with limit 0) the walk reads until a page has no
      cursor and returns every item of every page, unless a page fails. */
  lemma UnlimitedReturnsEverything(q: Query, pages: seq<GetResponse>)
    requires EndsTerminal(pages)
    requires q.limit.None? || q.limit == Some(0)
    ensures var k := StopIndex(q, pages);
      && (Outcome(q, pages, k).Ok? <==> pages[k].Success?)
      && (pages[k].Success? ==> Outcome(q, pages, k) == Ok(Collected(pages, k + 1)) && !Truthy(PageCursor(pages[k])))
  {
  }

  /** With a positive limit n the walk returns the first min(n, total) items
      of the pages it read, and fewer than n only when it ran out of pages. */
  lemma PositiveLimitTruncates(q: Query, pages: seq<GetResponse>, n: int)
    requires EndsTerminal(pages)
    requires q.limit == Some(n) && n > 0
    ensures var k := StopIndex(q, pages);
      Outcome(q, pages, k).Ok? ==>
        var r := Outcome(q, pages, k).value;
        var all := Collected(pages, k + 1);
        && r == all[..|r|]
        && |r| == (if n < |all| then n else |all|)
        && (|r| < n ==> !Truthy(PageCursor(pages[k])))
  {
  }

  /** A negative limit -m stops after the first page and drops its last m
      items (Python's `items[:-m]`). */
  lemma NegativeLimitDropsFromFirstPage(q: Query, pages: seq<GetResponse>, m: int)
    requires EndsTerminal(pages)
    requires q.limit == Some(-m) && m > 0
    requires pages[0].Success?
    ensures StopIndex(q, pages) == 0
    ensures var items := PageItems(pages[0]);
      Outcome(q, pages, 0) == Ok(if |items| < m then [] else items[..|items| - m])
  {
    assert Collected(pages, 1) == PageItems(pages[0]);
  }

  /** Request j targets the query URL with the query headers; it carries a
      cursor exactly when j > 0, namely the one page j - 1 returned, and the
      selectors that are set. */
  predicate RequestShape(url: string, headers: map<string, string>, verify: SslVerify, q: Query, pages: seq<GetResponse>, r: Request, j: nat)
    requires j <= |pages|
  {
    && r.url == url && r.headers == headers && r.verify == verify
    && ("continue" in r.params <==> j > 0)
    && (j > 0 ==> Some(r.params["continue"]) == PageCursor(pages[j - 1]))
    && ("labelSelector" in r.params <==> Truthy(q.labelSelector))
    && ("fieldSelector" in r.params <==> Truthy(q.fieldSelector))
  }

  /** Every request targets the same URL with the same headers; the first
      carries no cursor and each later one carries the cursor of the page
      before it, together with the selectors. */
  lemma {:induction false} RequestsFollowCursors(url: string, headers: map<string, string>, verify: SslVerify, q: Query, pages: seq<GetResponse>, n: nat)
    requires n <= |pages|
    requires forall j :: 0 <= j < n - 1 ==> pages[j].Success? && Truthy(pages[j].body.continueToken)
    ensures forall j :: 0 <= j < n ==> RequestShape(url, headers, verify, q, pages, Requests(url, headers, verify, q, pages, n)[j], j)
  {
    if n > 0 {
      RequestsFollowCursors(url, headers, verify, q, pages, n - 1);
      var rs := Requests(url, headers, verify, q, pages, n);
      var prev := Requests(url, headers, verify, q, pages, n - 1);
      assert forall j :: 0 <= j < n - 1 ==> rs[j] == prev[j];
      if n > 1 {
        assert pages[n - 2].Success? && Truthy(pages[n - 2].body.continueToken);
      }
      assert RequestShape(url, headers, verify, q, pages, rs[n - 1], n - 1);
    }
  }

  /** The walk sends one request per page it reads and never reads past the
      backend's last page. */
  lemma RequestCount(url: string, headers: map<string, string>, verify: SslVerify, q: Query, pages: seq<GetResponse>)
    requires EndsTerminal(pages)
    ensures 1 <= |Requests(url, headers, verify, q, pages, StopIndex(q, pages) + 1)| <= |pages|
  {
  }
}
