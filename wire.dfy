/** What the backend sends back, as the two servers see it. JSON objects the
    code only passes through are opaque; the fields it reads are typed, and a
    key that may be missing is an Option. */
module Wire {
  import opened Wrappers

  /** The `metadata` object of a resource. */
  datatype Metadata = Metadata(name: Option<string>, creationTimestamp: Option<string>, updateTimestamp: Option<string>)

  /** A resource record (device, fleet, event, ...): its metadata, when the
      key is present, and the rest of the object, which no code inspects. */
  datatype Resource = Resource(metadata: Option<Metadata>, fields: map<string, string>)

  /** The `metadata` object of a list response. */
  datatype ListMeta = ListMeta(continueToken: Option<string>)

  /** The JSON body of a list response: `items`, a top-level `continue` and
      `metadata.continue`, each possibly missing. */
  datatype ListBody = ListBody(items: Option<seq<Resource>>, continueToken: Option<string>, metadata: Option<ListMeta>)

  /** How one GET of a list endpoint ends. */
  datatype GetResponse =
    /** 2xx with a JSON object body. */
    | Success(body: ListBody)
    /** `raise_for_status()` raised: the status, its reason phrase, the body
        text and the exception's own text. */
    | HttpStatusError(status: nat, reason: string, text: string, detail: string)
    /** Connection, DNS, TLS or timeout failure (any other request exception). */
    | NetworkFailure(detail: string)
    /** The body is not JSON. */
    | InvalidJson(detail: string)
    /** Any other exception while requesting. */
    | UnexpectedFailure(detail: string)

  /** The items of a page; a missing `items` key is an empty page. */
  function PageItems(r: GetResponse): seq<Resource> {
    if r.Success? then r.body.items.GetOr([]) else []
  }

  /** The items of the first `n` pages, in arrival order. */
  function Collected(pages: seq<GetResponse>, n: nat): (r: seq<Resource>)
    requires n <= |pages|
  {
    if n == 0 then [] else Collected(pages, n - 1) + PageItems(pages[n - 1])
  }

  /** Later pages only extend what earlier pages collected. */
  lemma {:induction false} CollectedGrows(pages: seq<GetResponse>, m: nat, n: nat)
    requires m <= n <= |pages|
    ensures Collected(pages, m) <= Collected(pages, n)
    decreases n - m
  {
    if m < n {
      CollectedGrows(pages, m, n - 1);
    }
  }

  /** The `expires_in` field of a token response. */
  datatype ExpiresIn =
    | ExpiresAbsent
    | ExpiresNumber(seconds: real)
    /** Present but not a number (`now + value` raises TypeError). */
    | ExpiresNotNumber(detail: string)

  /** How the POST to the token endpoint ends. */
  datatype TokenResponse =
    /** 2xx with a JSON object; `access_token` may be missing. */
    | TokenGranted(accessToken: Option<string>, expiresIn: ExpiresIn)
    /** `raise_for_status()` raised with this status. */
    | TokenHttpError(status: nat)
    /** A request exception without a response: connection failure, or a body
        that is not JSON. */
    | TokenTransportError(detail: string)
    /** Any other exception. */
    | TokenUnexpectedError(detail: string)
}
