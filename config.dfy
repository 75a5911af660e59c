/** Configuration resolution and trust policy (resource_queries.py,
    class Configuration). The client configuration file and the process
    environment are inputs: the file as the values of the keys the loader
    reads, the environment as a map, and the file system as the set of paths
    that exist. */
module Config {
  import opened Wrappers
  import opened Text

  const DefaultClientId := "flightctl"

  /** The path the loader appends to a bare Keycloak realm URL. */
  const TokenPathSuffix := "/protocol/openid-connect/token"

  /** The environment variables that override the file. */
  const ApiBaseUrlVar := "API_BASE_URL"
  const OidcTokenUrlVar := "OIDC_TOKEN_URL"
  const ClientIdVar := "OIDC_CLIENT_ID"
  const RefreshTokenVar := "REFRESH_TOKEN"
  const InsecureVar := "INSECURE_SKIP_VERIFY"
  const CaCertVar := "CA_CERT_PATH"

  /** The values `client.yaml` holds under the keys the loader reads; None is
      a missing key (a missing section makes all of its keys missing). */
  datatype ConfigFile = ConfigFile(
    server: Option<string>,                // service.server
    insecureSkipVerify: Option<bool>,      // service.insecureSkipVerify
    authServer: Option<string>,            // authentication.auth-provider.config.server
    clientId: Option<string>,              // ...config.client-id
    refreshToken: Option<string>,          // ...config.refresh-token
    certificateAuthority: Option<string>)  // ...config.certificate-authority

  /** The six settings a Configuration holds. */
  datatype Settings = Settings(
    apiBaseUrl: Option<string>,
    oidcTokenUrl: Option<string>,
    clientId: string,
    refreshToken: Option<string>,
    insecureSkipVerify: bool,
    caCertPath: Option<string>)

  /** The `verify=` argument handed to the HTTP library: False, a CA bundle
      path, or True (the system trust store). */
  datatype SslVerify = VerifyOff | VerifyCaBundle(path: string) | VerifySystem

  /** `os.environ.get(key)` is truthy. */
  predicate EnvSet(env: map<string, string>, key: string) {
    key in env && env[key] != ""
  }

  /** The values accepted as "true" for INSECURE_SKIP_VERIFY, after lower-casing. */
  predicate IsTrueFlag(v: string) {
    AsciiLower(v) in {"true", "1", "yes"}
  }

  // -----------------------------------------------------------------------
  // The realm URL rule

  /** The last index below `j` that holds '/'. */
  function LastSlashBefore(s: string, j: nat): (r: Option<nat>)
    requires j <= |s|
    ensures r.Some? ==> r.value < j && s[r.value] == '/'
    ensures forall k :: (if r.Some? then r.value + 1 else 0) <= k < j ==> s[k] != '/'
    decreases j
  {
    if j == 0 then None else if s[j - 1] == '/' then Some(j - 1) else LastSlashBefore(s, j - 1)
  }

  predicate NoNewline(s: string) {
    forall i :: 0 <= i < |s| ==> s[i] != '\n'
  }

  /** `http://` or `https://` followed by at least one character other than
      a line feed: the `https?://.+` part of the pattern. */
  predicate IsSchemeAndHost(p: string) {
    || (StartsWith(p, "http://") && |p| > 7 && NoNewline(p[7..]))
    || (StartsWith(p, "https://") && |p| > 8 && NoNewline(p[8..]))
  }

  /** `re.match(r"(https?://.+/realms/[^/]+)$", s)` succeeds. The last
      segment holds no '/', so it starts after the last slash of `s`, and the
      eight characters up to that slash must be "/realms/". When the match
      succeeds its group is the whole of `s` (the greedy last segment runs to
      the end, a trailing line feed included). */
  predicate IsRealmUrl(s: string) {
    match LastSlashBefore(s, |s|)
    case None => false
    case Some(i) =>
      i + 1 < |s| && 8 <= i + 1 && s[i + 1 - 8..i + 1] == "/realms/" && IsSchemeAndHost(s[..i + 1 - 8])
  }

  /** The same rule read off the regular expression directly: a scheme, a
      host part, "/realms/" and a realm name without '/'. */
  ghost predicate MatchesRealmPattern(s: string) {
    exists p: string, realm: string ::
      && s == p + "/realms/" + realm
      && IsSchemeAndHost(p)
      && realm != [] && (forall k :: 0 <= k < |realm| ==> realm[k] != '/')
  }

  /** `IsRealmUrl` decides exactly the language of the pattern. */
  lemma RealmUrlMatchesPattern(s: string)
    ensures IsRealmUrl(s) <==> MatchesRealmPattern(s)
  {
    if IsRealmUrl(s) {
      RealmUrlIsPattern(s);
    }
    if MatchesRealmPattern(s) {
      var p: string, realm: string :| && s == p + "/realms/" + realm
        && IsSchemeAndHost(p)
        && realm != [] && (forall k :: 0 <= k < |realm| ==> realm[k] != '/');
      PatternIsRealmUrl(s, p, realm);
    }
  }

  lemma RealmUrlIsPattern(s: string)
    requires IsRealmUrl(s)
    ensures MatchesRealmPattern(s)
  {
    var i := LastSlashBefore(s, |s|).value;
    var p, realm := s[..i + 1 - 8], s[i + 1..];
    assert s == p + "/realms/" + realm by {
      assert s == s[..i + 1 - 8] + s[i + 1 - 8..i + 1] + s[i + 1..];
    }
    assert forall k :: 0 <= k < |realm| ==> realm[k] == s[i + 1 + k];
  }

  lemma PatternIsRealmUrl(s: string, p: string, realm: string)
    requires s == p + "/realms/" + realm
    requires IsSchemeAndHost(p)
    requires realm != [] && (forall k :: 0 <= k < |realm| ==> realm[k] != '/')
    ensures IsRealmUrl(s)
  {
    var i := |p| + 7;
    assert s[i] == '/';
    assert forall k :: i + 1 <= k < |s| ==> s[k] == realm[k - i - 1];
    LastSlashIs(s, i);
    assert s[..i + 1 - 8] == p;
    assert s[i + 1 - 8..i + 1] == "/realms/";
  }

  /** If `s[i]` is '/' and no later character is, it is the last slash. */
  lemma {:induction false} LastSlashIs(s: string, i: nat)
    requires i < |s| && s[i] == '/'
    requires forall k :: i + 1 <= k < |s| ==> s[k] != '/'
    ensures LastSlashBefore(s, |s|) == Some(i)
  {
    var j := |s|;
    while j > i + 1
      invariant i + 1 <= j <= |s|
      invariant LastSlashBefore(s, j) == LastSlashBefore(s, |s|)
    {
      j := j - 1;
    }
  }

  /** A realm base URL never already ends with the token path, so the
      `endswith` guard only matters for URLs the pattern rejects anyway. */
  lemma RealmUrlLacksTokenPath(s: string)
    requires IsRealmUrl(s)
    ensures !EndsWith(s, TokenPathSuffix)
  {
    var i := LastSlashBefore(s, |s|).value;
    assert s[i - 1] == "/realms/"[6];
    if EndsWith(s, TokenPathSuffix) {
      TokenPathSlash(s);
      assert false;
    }
  }

  /** The last slash of a URL ending in the token path is the one before
      "token", and the character before that slash is 't'. */
  lemma TokenPathSlash(s: string)
    requires EndsWith(s, TokenPathSuffix)
    ensures LastSlashBefore(s, |s|) == Some(|s| - 6) && s[|s| - 7] == 't'
  {
    var k := |s| - |TokenPathSuffix|;
    assert forall m :: k <= m < |s| ==> s[m] == TokenPathSuffix[m - k];
    LastSlashIs(s, |s| - 6);
  }

  /** The auto-correction of the token URL. */
  function FixOidcUrl(url: Option<string>): Option<string> {
    if Truthy(url) && !EndsWith(url.value, TokenPathSuffix) && IsRealmUrl(url.value) then
      Some(url.value + TokenPathSuffix)
    else url
  }

  /** The correction appends the token path to realm base URLs and to nothing
      else, and correcting twice is correcting once. */
  lemma {:induction false} FixOidcUrlFacts(url: Option<string>)
    ensures Truthy(url) && IsRealmUrl(url.value) ==> FixOidcUrl(url) == Some(url.value + TokenPathSuffix)
    ensures !(Truthy(url) && IsRealmUrl(url.value)) ==> FixOidcUrl(url) == url
    ensures FixOidcUrl(FixOidcUrl(url)) == FixOidcUrl(url)
  {
    if Truthy(url) && IsRealmUrl(url.value) {
      RealmUrlLacksTokenPath(url.value);
      EndsWithAppended(url.value, TokenPathSuffix);
    }
  }

  // -----------------------------------------------------------------------
  // The layered resolution, as one value

  /** The settings before any file or environment is read. */
  function Defaults(): Settings {
    Settings(None, None, DefaultClientId, None, false, None)
  }

  /** The settings once the configuration file (if there is one) is read. */
  function FileLayer(file: Option<ConfigFile>, existing: set<string>): Settings {
    match file
    case None => Defaults()
    case Some(f) =>
      Settings(
        Some(RStripSlash(f.server.GetOr(""))),
        Some(RStripSlash(f.authServer.GetOr(""))),
        f.clientId.GetOr(DefaultClientId),
        f.refreshToken,
        f.insecureSkipVerify.GetOr(false),
        if Truthy(f.certificateAuthority) && f.certificateAuthority.value in existing then f.certificateAuthority else None)
  }

  /** The settings once each set environment variable has replaced the
      value below it. */
  function EnvLayer(base: Settings, env: map<string, string>, existing: set<string>): Settings {
    Settings(
      if EnvSet(env, ApiBaseUrlVar) then Some(RStripSlash(env[ApiBaseUrlVar])) else base.apiBaseUrl,
      if EnvSet(env, OidcTokenUrlVar) then Some(RStripSlash(env[OidcTokenUrlVar])) else base.oidcTokenUrl,
      if EnvSet(env, ClientIdVar) then env[ClientIdVar] else base.clientId,
      if EnvSet(env, RefreshTokenVar) then Some(env[RefreshTokenVar]) else base.refreshToken,
      if EnvSet(env, InsecureVar) then IsTrueFlag(env[InsecureVar]) else base.insecureSkipVerify,
      if EnvSet(env, CaCertVar) && env[CaCertVar] in existing then Some(env[CaCertVar]) else base.caCertPath)
  }

  /** The settings the loader ends with: the file, the environment over it,
      then the token-URL correction. */
  function Resolve(file: Option<ConfigFile>, env: map<string, string>, existing: set<string>): Settings {
    var layered := EnvLayer(FileLayer(file, existing), env, existing);
    layered.(oidcTokenUrl := FixOidcUrl(layered.oidcTokenUrl))
  }

  /** With no file and none of the six variables set, the loader keeps its
      defaults. */
  lemma ResolveDefaults(env: map<string, string>, existing: set<string>)
    requires forall k :: k in {ApiBaseUrlVar, OidcTokenUrlVar, ClientIdVar, RefreshTokenVar, InsecureVar, CaCertVar} ==> !EnvSet(env, k)
    ensures Resolve(None, env, existing) == Settings(None, None, "flightctl", None, false, None)
  {
    assert !EnvSet(env, ApiBaseUrlVar) && !EnvSet(env, OidcTokenUrlVar) && !EnvSet(env, ClientIdVar);
    assert !EnvSet(env, RefreshTokenVar) && !EnvSet(env, InsecureVar) && !EnvSet(env, CaCertVar);
  }

  /** A set environment variable decides its setting whatever the file says. */
  lemma EnvironmentOverridesFile(f1: Option<ConfigFile>, f2: Option<ConfigFile>, env: map<string, string>, existing: set<string>)
    ensures var r1, r2 := Resolve(f1, env, existing), Resolve(f2, env, existing);
      && (EnvSet(env, ApiBaseUrlVar) ==> r1.apiBaseUrl == r2.apiBaseUrl == Some(RStripSlash(env[ApiBaseUrlVar])))
      && (EnvSet(env, OidcTokenUrlVar) ==> r1.oidcTokenUrl == r2.oidcTokenUrl == FixOidcUrl(Some(RStripSlash(env[OidcTokenUrlVar]))))
      && (EnvSet(env, ClientIdVar) ==> r1.clientId == r2.clientId == env[ClientIdVar])
      && (EnvSet(env, RefreshTokenVar) ==> r1.refreshToken == r2.refreshToken == Some(env[RefreshTokenVar]))
      && (EnvSet(env, InsecureVar) ==> r1.insecureSkipVerify == r2.insecureSkipVerify == IsTrueFlag(env[InsecureVar]))
      && (EnvSet(env, CaCertVar) && env[CaCertVar] in existing ==> r1.caCertPath == r2.caCertPath == Some(env[CaCertVar]))
  {
  }

  lemma RStripSlashNoTrailingSlash(s: string)
    ensures !EndsWith(RStripSlash(s), "/")
  {
  }

  /** The two URLs never keep a trailing slash, whichever layer they come from. */
  lemma ResolvedUrlsHaveNoTrailingSlash(file: Option<ConfigFile>, env: map<string, string>, existing: set<string>)
    ensures var r := Resolve(file, env, existing);
      && (r.apiBaseUrl.Some? ==> !EndsWith(r.apiBaseUrl.value, "/"))
      && (r.oidcTokenUrl.Some? ==> !EndsWith(r.oidcTokenUrl.value, "/"))
  {
    var base := FileLayer(file, existing);
    if file.Some? {
      RStripSlashNoTrailingSlash(file.value.server.GetOr(""));
      RStripSlashNoTrailingSlash(file.value.authServer.GetOr(""));
    }
    if EnvSet(env, ApiBaseUrlVar) {
      RStripSlashNoTrailingSlash(env[ApiBaseUrlVar]);
    }
    if EnvSet(env, OidcTokenUrlVar) {
      RStripSlashNoTrailingSlash(env[OidcTokenUrlVar]);
    }
    var raw := EnvLayer(base, env, existing).oidcTokenUrl;
    assert raw.Some? ==> !EndsWith(raw.value, "/");
    FixOidcUrlFacts(raw);
    if Truthy(raw) && IsRealmUrl(raw.value) {
      var u := raw.value + TokenPathSuffix;
      assert u[|u| - 1] == 'n';
    }
  }

  /** The realm URL of the repository's configuration-file test is
      corrected to its token endpoint. */
  lemma FixOidcUrlExample()
    ensures var u := "https://auth.flightctl.example.com" + "/realms/" + "flightctl";
      FixOidcUrl(Some(u)) == Some(u + "/protocol/openid-connect/token")
  {
    var host, realm := "https://auth.flightctl.example.com", "flightctl";
    assert NoNewline(host[8..]);
    PatternIsRealmUrl(host + "/realms/" + realm, host, realm);
    FixOidcUrlFacts(Some(host + "/realms/" + realm));
  }

  // -----------------------------------------------------------------------
  // The Configuration object

  class Configuration {
    var apiBaseUrl: Option<string>
    var oidcTokenUrl: Option<string>
    var clientId: string
    var refreshToken: Option<string>
    var insecureSkipVerify: bool
    var caCertPath: Option<string>

    function Snapshot(): Settings
      reads this
    {
      Settings(apiBaseUrl, oidcTokenUrl, clientId, refreshToken, insecureSkipVerify, caCertPath)
    }

    /** Python's `Configuration()`, which loads at once. */
    constructor (file: Option<ConfigFile>, env: map<string, string>, existing: set<string>)
      ensures Snapshot() == Resolve(file, env, existing)
    {
      new;
      LoadConfig(file, env, existing);
    }

    /** `_load_config`: defaults, then the file, then each environment
      override in turn, then the token-URL correction. */
    method LoadConfig(file: Option<ConfigFile>, env: map<string, string>, existing: set<string>)
      modifies this
      ensures Snapshot() == Resolve(file, env, existing)
    {
      LoadFile(file, existing);
      ApplyEnvironment(env, existing);
      oidcTokenUrl := FixOidcUrl(oidcTokenUrl);
    }

    /** The defaults, then the values read from the file. */
    method LoadFile(file: Option<ConfigFile>, existing: set<string>)
      modifies this
      ensures Snapshot() == FileLayer(file, existing)
    {
      apiBaseUrl := None;
      oidcTokenUrl := None;
      clientId := DefaultClientId;
      refreshToken := None;
      insecureSkipVerify := false;
      caCertPath := None;

      if file.Some? {
        var f := file.value;
        apiBaseUrl := Some(RStripSlash(f.server.GetOr("")));
        insecureSkipVerify := f.insecureSkipVerify.GetOr(false);
        oidcTokenUrl := Some(RStripSlash(f.authServer.GetOr("")));
        clientId := f.clientId.GetOr(DefaultClientId);
        refreshToken := f.refreshToken;
        var ca := f.certificateAuthority;
        if Truthy(ca) && ca.value in existing {
          caCertPath := ca;
        }
      }
    }

    /** The environment overrides, one variable after the other. */
    method ApplyEnvironment(env: map<string, string>, existing: set<string>)
      modifies this
      ensures Snapshot() == EnvLayer(old(Snapshot()), env, existing)
    {
      if EnvSet(env, ApiBaseUrlVar) {
        apiBaseUrl := Some(RStripSlash(env[ApiBaseUrlVar]));
      }
      if EnvSet(env, OidcTokenUrlVar) {
        oidcTokenUrl := Some(RStripSlash(env[OidcTokenUrlVar]));
      }
      if EnvSet(env, ClientIdVar) {
        clientId := env[ClientIdVar];
      }
      if EnvSet(env, RefreshTokenVar) {
        refreshToken := Some(env[RefreshTokenVar]);
      }
      if EnvSet(env, InsecureVar) {
        insecureSkipVerify := IsTrueFlag(env[InsecureVar]);
      }
      if EnvSet(env, CaCertVar) {
        var caPath := env[CaCertVar];
        if caPath in existing {
          caCertPath := Some(caPath);
        }
      }
    }

    /** `get_ssl_verify`: skipping verification wins, then a configured CA
      bundle, then the system trust store. */
    function GetSslVerify(): (v: SslVerify)
      reads this
      ensures v == VerifyOff <==> insecureSkipVerify
      ensures v.VerifyCaBundle? <==> !insecureSkipVerify && Truthy(caCertPath)
      ensures v.VerifyCaBundle? ==> v.path == caCertPath.value
      ensures v == VerifySystem <==> !insecureSkipVerify && !Truthy(caCertPath)
    {
      if insecureSkipVerify then VerifyOff
      else if Truthy(caCertPath) then VerifyCaBundle(caCertPath.value)
      else VerifySystem
    }
  }
}
