/** FlightControlClient: a validated configuration, the access-token cache,
    the six list queries and the console command. The network, the clock
    and the processes are inputs of each operation. */
module Client {
  import opened Wrappers
  import opened Text
  import opened Errors
  import opened Wire
  import opened Config
  import opened TokenCache
  import opened Pagination
  import opened Console

  /** Why a configuration cannot back a client, checked in the source's
      order: the API URL, the token URL, the refresh token. */
  function ConfigError(s: Settings): (e: Option<Error>)
    ensures e.None? <==> Truthy(s.apiBaseUrl) && Truthy(s.oidcTokenUrl) && Truthy(s.refreshToken)
    ensures e.Some? ==> e.value.FlightControlError?
    ensures !Truthy(s.apiBaseUrl) ==>
      e == Some(FlightControlError("API_BASE_URL not configured. Set environment variable or run 'flightctl login'"))
    ensures Truthy(s.apiBaseUrl) && !Truthy(s.oidcTokenUrl) ==>
      e == Some(FlightControlError("OIDC_TOKEN_URL not configured. Set environment variable or run 'flightctl login'"))
    ensures Truthy(s.apiBaseUrl) && Truthy(s.oidcTokenUrl) && !Truthy(s.refreshToken) ==>
      e == Some(FlightControlError("REFRESH_TOKEN not configured. Set environment variable or run 'flightctl login'"))
  {
    if !Truthy(s.apiBaseUrl) then
      Some(FlightControlError("API_BASE_URL not configured. Set environment variable or run 'flightctl login'"))
    else if !Truthy(s.oidcTokenUrl) then
      Some(FlightControlError("OIDC_TOKEN_URL not configured. Set environment variable or run 'flightctl login'"))
    else if !Truthy(s.refreshToken) then
      Some(FlightControlError("REFRESH_TOKEN not configured. Set environment variable or run 'flightctl login'"))
    else None
  }

  /** The POST to the token endpoint. */
  datatype TokenRequest = TokenRequest(url: string, form: map<string, string>, headers: map<string, string>, verify: SslVerify)

  /** The refresh-token grant: `grant_type=refresh_token`, the client id and
      the refresh token as a form; an unset refresh token is left out of the
      form, as the HTTP library drops None-valued fields. */
  function TokenRequestFor(s: Settings, verify: SslVerify): (r: TokenRequest)
    ensures r.url == PyStr(s.oidcTokenUrl) && r.verify == verify
    ensures r.headers == map["Content-Type" := "application/x-www-form-urlencoded"]
    ensures "grant_type" in r.form && r.form["grant_type"] == "refresh_token"
    ensures "client_id" in r.form && r.form["client_id"] == s.clientId
    ensures "refresh_token" in r.form <==> s.refreshToken.Some?
    ensures "refresh_token" in r.form ==> r.form["refresh_token"] == s.refreshToken.value
    ensures r.form.Keys <= {"grant_type", "client_id", "refresh_token"}
  {
    var form := map["grant_type" := "refresh_token", "client_id" := s.clientId];
    TokenRequest(
      PyStr(s.oidcTokenUrl),
      if s.refreshToken.Some? then form["refresh_token" := s.refreshToken.value] else form,
      map["Content-Type" := "application/x-www-form-urlencoded"],
      verify)
  }

  /** The six resource collections the client lists. */
  datatype ResourceKind = Devices | Fleets | Events | EnrollmentRequests | Repositories | ResourceSyncs

  /** The collection's path segment under `/api/v1/`. */
  function ResourcePath(k: ResourceKind): string {
    match k
    case Devices => "devices"
    case Fleets => "fleets"
    case Events => "events"
    case EnrollmentRequests => "enrollmentrequests"
    case Repositories => "repositories"
    case ResourceSyncs => "resourcesyncs"
  }

  /** Different collections are different endpoints. */
  lemma ResourcePathsDistinct(a: ResourceKind, b: ResourceKind)
    ensures ResourcePath(a) == ResourcePath(b) <==> a == b
  {
  }

  /** The arguments each `query_*` method passes on: `query_events` takes no
      label selector. */
  function KindQuery(k: ResourceKind, labelSelector: Option<string>, fieldSelector: Option<string>, limit: Option<int>): (q: Query)
    ensures q.resource == ResourcePath(k) && q.fieldSelector == fieldSelector && q.limit == limit
    ensures q.labelSelector == if k == Events then None else labelSelector
  {
    Query(ResourcePath(k), if k == Events then None else labelSelector, fieldSelector, limit)
  }

  /** `f"{api_base_url}/api/v1/{resource}"` */
  function ListUrl(s: Settings, k: ResourceKind): (u: string)
    ensures EndsWith(u, "/api/v1/" + ResourcePath(k))
  {
    EndsWithAppended(PyStr(s.apiBaseUrl), "/api/v1/" + ResourcePath(k));
    PyStr(s.apiBaseUrl) + ("/api/v1/" + ResourcePath(k))
  }

  /** The one header every page request carries. */
  function BearerHeaders(token: string): (h: map<string, string>)
    ensures h.Keys == {"Authorization"} && h["Authorization"] == "Bearer " + token
  {
    map["Authorization" := "Bearer " + token]
  }

  class FlightControlClient {
    const config: Configuration
    var accessToken: Option<string>
    var tokenExpiry: real

    /** The cache fields as one value. */
    function Token(): TokenState
      reads this
    {
      TokenState(accessToken, tokenExpiry)
    }

    /** A client over an already validated configuration, with an empty
        cache. */
    constructor (config: Configuration)
      requires ConfigError(config.Snapshot()).None?
      ensures this.config == config && Token() == Initial()
    {
      this.config := config;
      accessToken := None;
      tokenExpiry := 0.0;
    }

    /** `FlightControlClient(config)`: fails with the first missing setting,
        otherwise a client with no token cached. */
    static method Create(config: Configuration) returns (r: Result<FlightControlClient, Error>)
      ensures r.Err? <==> ConfigError(config.Snapshot()).Some?
      ensures r.Err? ==> r.error == ConfigError(config.Snapshot()).value
      ensures r.Ok? ==> fresh(r.value) && r.value.config == config && r.value.Token() == Initial()
    {
      var e := ConfigError(config.Snapshot());
      if e.Some? {
        return Err(e.value);
      }
      var c := new FlightControlClient(config);
      return Ok(c);
    }

    /** `_get_access_token` at time `now`; `response` is how the token
        endpoint answers if asked. Returns the token or error and the
        request sent, if any. */
    method GetAccessToken(now: real, response: TokenResponse) returns (r: Result<string, Error>, request: Option<TokenRequest>)
      modifies this
      ensures var s := Refresh(old(Token()), now, response);
        Token() == s.state && r == s.result
      ensures request == if Reusable(old(Token()), now) then None
        else Some(TokenRequestFor(config.Snapshot(), config.GetSslVerify()))
    {
      if Truthy(accessToken) && now < tokenExpiry - ExpiryMargin {
        return Ok(accessToken.value), None;
      }
      request := Some(TokenRequestFor(config.Snapshot(), config.GetSslVerify()));
      var failure := ExchangeError(response);
      if failure.Some? {
        return Err(failure.value), request;
      }
      var lifetime := Lifetime(response.expiresIn);
      accessToken := response.accessToken;
      tokenExpiry := now + lifetime;
      r := Ok(accessToken.value);
    }

    /** `_query_resources` behind `query_<kind>`: one token, then the page
        walk with it. A token failure is raised before any page is asked
        for. */
    method QueryResources(kind: ResourceKind, labelSelector: Option<string>, fieldSelector: Option<string>, limit: Option<int>,
                          now: real, tokenResponse: TokenResponse, pages: seq<GetResponse>)
      returns (r: Result<seq<Resource>, Error>, tokenRequest: Option<TokenRequest>, sent: seq<Request>)
      requires EndsTerminal(pages)
      modifies this
      ensures var s := Refresh(old(Token()), now, tokenResponse);
        && Token() == s.state
        && (s.result.Err? ==> r == Err(s.result.error) && sent == [])
        && (s.result.Ok? ==>
              var q := KindQuery(kind, labelSelector, fieldSelector, limit);
              var k := StopIndex(q, pages);
              && r == Outcome(q, pages, k)
              && sent == Requests(ListUrl(config.Snapshot(), kind), BearerHeaders(s.result.value), config.GetSslVerify(), q, pages, k + 1))
      ensures tokenRequest == if Reusable(old(Token()), now) then None
        else Some(TokenRequestFor(config.Snapshot(), config.GetSslVerify()))
    {
      var url := ListUrl(config.Snapshot(), kind);
      var token;
      token, tokenRequest := GetAccessToken(now, tokenResponse);
      if token.Err? {
        return Err(token.error), tokenRequest, [];
      }
      var q := KindQuery(kind, labelSelector, fieldSelector, limit);
      r, sent := Paginate(url, BearerHeaders(token.value), config.GetSslVerify(), q, pages);
    }

    /** `run_console_command`: the checks, then a token, then the login and
        the command. `cliFound` is whether `flightctl` is on the search
        path; `login` and `run` are how the two processes end. */
    method RunConsoleCommand(cliPath: string, device: string, command: string, cliFound: bool,
                             now: real, tokenResponse: TokenResponse, login: ProcessResult, run: ProcessResult)
      returns (r: Result<string, Error>, tokenRequest: Option<TokenRequest>, commands: seq<seq<string>>)
      modifies this
      ensures ValidateConsole(cliFound, device, command).Some? ==>
        && r == Err(ValidateConsole(cliFound, device, command).value)
        && Token() == old(Token()) && tokenRequest.None? && commands == []
      ensures ValidateConsole(cliFound, device, command).None? ==>
        var s := Refresh(old(Token()), now, tokenResponse);
        && Token() == s.state
        && (s.result.Err? ==> r == Err(s.result.error) && commands == [])
        && (s.result.Ok? ==>
              var session := ConsoleSession(cliPath, config.insecureSkipVerify, device, command, s.result.value, login, run);
              r == session.result && commands == session.commands)
        && tokenRequest == (if Reusable(old(Token()), now) then None
                            else Some(TokenRequestFor(config.Snapshot(), config.GetSslVerify())))
    {
      var invalid := ValidateConsole(cliFound, device, command);
      if invalid.Some? {
        return Err(invalid.value), None, [];
      }
      var token;
      token, tokenRequest := GetAccessToken(now, tokenResponse);
      if token.Err? {
        return Err(token.error), tokenRequest, [];
      }
      var session := ConsoleSession(cliPath, config.insecureSkipVerify, device, command, token.value, login, run);
      r, commands := session.result, session.commands;
    }
  }
}
