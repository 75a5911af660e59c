/** The access-token cache of FlightControlClient (`_get_access_token`):
    two fields, the cached token and its expiry in epoch seconds, read and
    replaced under a lock. The lock is not modelled; each call is one step of
    the functions below, with the clock reading and the outcome of the token
    exchange (an OAuth2 refresh-token grant, section 6 of RFC 6749) as inputs. */
module TokenCache {
  import opened Wrappers
  import opened Text
  import opened Errors
  import opened Wire

  /** A cached token is refreshed this many seconds before it expires. */
  const ExpiryMargin: real := 60.0

  /** The lifetime assumed when the response carries no `expires_in`. */
  const DefaultExpiresIn: real := 3600.0

  /** `_access_token` and `_token_expiry`. */
  datatype TokenState = TokenState(accessToken: Option<string>, expiry: real)

  /** A new client holds no token and expiry 0. */
  function Initial(): TokenState {
    TokenState(None, 0.0)
  }

  /** The cached token is used as it is. */
  predicate Reusable(st: TokenState, now: real) {
    Truthy(st.accessToken) && now < st.expiry - ExpiryMargin
  }

  /** `data.get("expires_in", 3600)` as a number of seconds. */
  function Lifetime(e: ExpiresIn): real
    requires !e.ExpiresNotNumber?
  {
    if e.ExpiresNumber? then e.seconds else DefaultExpiresIn
  }

  /** The prefix of every failed-exchange message but one. */
  const RefreshFailed: string := "Failed to refresh OIDC token: "
  /** The message for a successful response without a token. */
  const MissingAccessToken: string := "Invalid OIDC token response: missing 'access_token'"

  /** The error a token exchange ends in, None when it yields a token. */
  function ExchangeError(resp: TokenResponse): (r: Option<Error>)
    ensures r.Some? ==> r.value.AuthenticationError?
    ensures r.None? <==> resp.TokenGranted? && resp.accessToken.Some? && !resp.expiresIn.ExpiresNotNumber?
    ensures resp.TokenHttpError? ==>
      r == Some(AuthenticationError(RefreshFailed + "HTTP " + NatToString(resp.status)))
    ensures resp.TokenTransportError? || resp.TokenUnexpectedError? ==>
      r == Some(AuthenticationError(RefreshFailed + resp.detail))
    ensures resp.TokenGranted? && resp.accessToken.None? ==>
      r == Some(AuthenticationError(MissingAccessToken))
    ensures resp.TokenGranted? && resp.accessToken.Some? && resp.expiresIn.ExpiresNotNumber? ==>
      r == Some(AuthenticationError(RefreshFailed + resp.expiresIn.detail))
  {
    match resp
    case TokenHttpError(status) =>
      Some(AuthenticationError(RefreshFailed + "HTTP " + NatToString(status)))
    case TokenTransportError(detail) =>
      Some(AuthenticationError(RefreshFailed + detail))
    case TokenUnexpectedError(detail) =>
      Some(AuthenticationError(RefreshFailed + detail))
    case TokenGranted(token, expiresIn) =>
      if token.None? then
        Some(AuthenticationError(MissingAccessToken))
      else if expiresIn.ExpiresNotNumber? then
        Some(AuthenticationError(RefreshFailed + expiresIn.detail))
      else None
  }

  /** One call: the new state, what it returns, and whether it asked the
      token endpoint. */
  datatype Step = Step(state: TokenState, result: Result<string, Error>, exchanged: bool)

  /** One call of `_get_access_token` at time `now`; `resp` is what the token
      endpoint answers if it is asked. */
  function Refresh(st: TokenState, now: real, resp: TokenResponse): (s: Step)
    ensures s.exchanged <==> !Reusable(st, now)
    ensures !s.exchanged ==> s.state == st && s.result == Ok(st.accessToken.value)
    ensures s.exchanged ==> (s.result.Ok? <==> ExchangeError(resp).None?)
    ensures s.result.Err? ==> s.state == st && s.result == Err(ExchangeError(resp).value)
    ensures s.exchanged && s.result.Ok? ==>
      && s.state == TokenState(resp.accessToken, now + Lifetime(resp.expiresIn))
      && Some(s.result.value) == resp.accessToken
  {
    if Reusable(st, now) then Step(st, Ok(st.accessToken.value), false)
    else
      match ExchangeError(resp)
      case Some(e) => Step(st, Err(e), true)
      case None =>
        Step(TokenState(resp.accessToken, now + Lifetime(resp.expiresIn)), Ok(resp.accessToken.value), true)
  }

  /** A token obtained at `t0` with lifetime `e` is served from the cache,
      without asking the endpoint, at every later time before `t0 + e - 60`. */
  lemma ReusedWithinLifetime(st: TokenState, t0: real, resp: TokenResponse, t: real, resp2: TokenResponse)
    requires Refresh(st, t0, resp).exchanged && Refresh(st, t0, resp).result.Ok?
    requires Refresh(st, t0, resp).result.value != ""
    requires t < t0 + Lifetime(resp.expiresIn) - ExpiryMargin
    ensures var s := Refresh(st, t0, resp).state;
      Refresh(s, t, resp2) == Step(s, Ok(resp.accessToken.value), false)
  {
  }

  // -----------------------------------------------------------------------
  // Sequences of calls

  /** A call: the clock reading and what the endpoint would answer. */
  datatype Call = Call(now: real, response: TokenResponse)

  datatype Trace = Trace(state: TokenState, results: seq<Result<string, Error>>, exchanges: nat)

  /** The calls made one after the other, from state `st`. */
  function RunCalls(st: TokenState, calls: seq<Call>): (t: Trace)
    ensures |t.results| == |calls|
    ensures t.exchanges <= |calls|
    decreases |calls|
  {
    if calls == [] then Trace(st, [], 0)
    else
      var s := Refresh(st, calls[0].now, calls[0].response);
      var rest := RunCalls(s.state, calls[1..]);
      Trace(rest.state, [s.result] + rest.results, (if s.exchanged then 1 else 0) + rest.exchanges)
  }

  /** Once a call has cached a non-empty token, every later call that comes
      before the refresh point returns that token and none of them asks the
      endpoint again. */
  lemma {:induction false} CachedTokenServesLaterCalls(st: TokenState, calls: seq<Call>)
    requires Truthy(st.accessToken)
    requires forall i :: 0 <= i < |calls| ==> calls[i].now < st.expiry - ExpiryMargin
    ensures RunCalls(st, calls) == Trace(st, seq(|calls|, _ => Ok(st.accessToken.value)), 0)
  {
    if calls != [] {
      CachedTokenServesLaterCalls(st, calls[1..]);
      var ok: Result<string, Error> := Ok(st.accessToken.value);
      assert seq(|calls|, _ => ok) == [ok] + seq(|calls| - 1, _ => ok);
    }
  }

  /** Calls that all come before the refresh point of the first call's new
      token ask the endpoint exactly once and all return that token. */
  lemma OneExchangeForABurst(st: TokenState, calls: seq<Call>)
    requires calls != [] && !Reusable(st, calls[0].now)
    requires ExchangeError(calls[0].response).None?
    requires var r := calls[0].response; r.accessToken.value != ""
    requires forall i :: 1 <= i < |calls| ==>
      calls[i].now < calls[0].now + Lifetime(calls[0].response.expiresIn) - ExpiryMargin
    ensures var t := RunCalls(st, calls);
      && t.exchanges == 1
      && forall i :: 0 <= i < |calls| ==> t.results[i] == Ok(calls[0].response.accessToken.value)
  {
    var s := Refresh(st, calls[0].now, calls[0].response);
    var rest := calls[1..];
    assert forall i :: 0 <= i < |rest| ==> rest[i] == calls[i + 1];
    CachedTokenServesLaterCalls(s.state, rest);
  }

  // -----------------------------------------------------------------------
  // The refresh as the source writes it

  /** `_get_access_token` as written: it stores `data["access_token"]` in
      `_access_token` before it evaluates `now + data.get("expires_in", 3600)`,
      so an `expires_in` that is not a number raises only after the cached
      token was replaced; the expiry keeps its old value. */
  function RefreshAsWritten(st: TokenState, now: real, resp: TokenResponse): (s: Step)
    ensures !s.exchanged ==> s.state == st
  {
    if Reusable(st, now) then Step(st, Ok(st.accessToken.value), false)
    else if resp.TokenGranted? && resp.accessToken.Some? && resp.expiresIn.ExpiresNotNumber? then
      Step(TokenState(resp.accessToken, st.expiry), Err(ExchangeError(resp).value), true)
    else Refresh(st, now, resp)
  }

  /** As written, a failed refresh can change the cached token: starting
      fresh, a response `{"access_token": "t", "expires_in": "3600"}` raises
      AuthenticationError and leaves "t" cached. */
  lemma AsWrittenFailureChangesToken()
    ensures var resp := TokenGranted(Some("t"), ExpiresNotNumber("unsupported operand type(s) for +: 'float' and 'str'"));
      var s := RefreshAsWritten(Initial(), 1000.0, resp);
      s.result.Err? && s.result.error.AuthenticationError? && s.state != Initial() && s.state.accessToken == Some("t")
  {
  }

  /** That is the only input on which the source and `Refresh` differ. */
  lemma AsWrittenDiffersOnlyOnBadLifetime(st: TokenState, now: real, resp: TokenResponse)
    ensures RefreshAsWritten(st, now, resp) != Refresh(st, now, resp) <==>
      && !Reusable(st, now)
      && resp.TokenGranted? && resp.accessToken.Some? && resp.expiresIn.ExpiresNotNumber?
      && resp.accessToken != st.accessToken
  {
  }
}
