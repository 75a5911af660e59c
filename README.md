# flightctl-mcp access layer, modelled in Dafny

flightctl-mcp is an MCP server that lets a language-model agent read from a
Flight Control device-management service: it lists devices, fleets, events,
enrollment requests, repositories and resource syncs, and it runs console
commands on devices through the `flightctl` CLI. This project models the
layer under the MCP tools:

- **Configuration** (`resource_queries.py`). The settings are read from
  `~/.config/flightctl/client.yaml` and overridden by environment variables.
  A bare Keycloak realm URL is then completed to its token endpoint. The
  trust policy handed to the HTTP library follows from the settings.
- **FlightControlClient** (`resource_queries.py`):
  - the three required settings;
  - the OIDC access-token cache (a refresh-token grant, section 6 of
    RFC 6749);
  - the cursor walk behind the six `query_*` methods, with its limit and
    its error mapping;
  - the input checks and argument vectors of `run_console_command`.
- **The older standalone server** (`mcp_server.py`). It uses a static API
  key, follows `metadata.continue` cursors, and wraps each item in a context
  record.
- **FlightctlCLI** (`cli.py`). It works out where the CLI is installed and
  derives the artifact URL from the API host. Its download short-circuits
  when the CLI is already on the search path.

The world outside the process is passed in as values:

- the configuration file, the environment and the set of existing paths;
- the clock reading;
- the backend, as one response per request in order;
- how the token endpoint answers;
- whether `flightctl` is on the search path;
- how each subprocess ends.

Each operation returns what it returns or raises, and the requests or
commands it issued.

Files, one module each:

- `wrappers.dfy`: Option and Result.
- `text.dfy`: Python's string behaviour that the code relies on: truthiness,
  `rstrip("/")`, `strip()`, `split()`, `find`, `str(int)` and
  `os.path.join`.
- `errors.dfy`: the exception taxonomy.
- `wire.dfy`: the JSON fields the code reads.
- `config.dfy`: `Configuration`.
- `token_cache.dfy`: `_get_access_token` as a state machine.
- `pagination.dfy`: `_query_resources`.
- `console.dfy`: `run_console_command`.
- `client.dfy`: the `FlightControlClient` class.
- `mcp_server.dfy`: the standalone server.
- `cli.dfy`: `FlightctlCLI`.

`get_ssl_verify` checks skip-verify first, then the CA path, then falls back
to the system store (resource_queries.py:160-167);
`Config.Configuration.GetSslVerify` keeps that order.

## Model

| member | source | states |
|---|---|---|
| Config.Configuration.LoadConfig | resource_queries.py:81-158 | the loaded settings are exactly `Resolve(file, env, existing)`: defaults, then the file, then the environment, then the realm-URL correction |
| Config.Configuration.LoadFile | resource_queries.py:84-122 | after the file step the settings are `FileLayer`: URLs right-stripped of '/', a missing key gives '' or the default, the CA path is kept only if it is set and exists |
| Config.Configuration.ApplyEnvironment | resource_queries.py:124-147 | each variable that is set and non-empty replaces its setting, and nothing else changes; INSECURE_SKIP_VERIFY is true iff it lower-cases to true/1/yes; CA_CERT_PATH counts only when the path exists |
| Config.Configuration.constructor | resource_queries.py:75-79 | a new configuration holds the resolved settings |
| Config.Configuration.GetSslVerify | resource_queries.py:160-167 | verification is off iff insecure-skip-verify is set; a CA bundle iff it is not set and a CA path is; the system store iff neither is set |
| Config.RealmUrlMatchesPattern | resource_queries.py:151-152 | the realm test accepts exactly the language of `https?://.+/realms/[^/]+$`: a scheme, a host part without newline, "/realms/" and a realm name without '/' |
| Config.RealmUrlIsPattern | resource_queries.py:151-152 | a URL the realm test accepts splits as scheme-and-host + "/realms/" + realm |
| Config.PatternIsRealmUrl | resource_queries.py:151-152 | every such split is accepted by the realm test |
| Config.RealmUrlLacksTokenPath | resource_queries.py:150-151 | a realm URL never already ends in the token path, so the suffix check never blocks the correction |
| Config.FixOidcUrlFacts | resource_queries.py:149-155 | a set realm URL gains "/protocol/openid-connect/token"; any other value is unchanged; the correction is idempotent |
| Config.FixOidcUrlExample | test_flightctl_mcp.py:69-93 | the realm URL of the configuration-file test is corrected to its token endpoint |
| Config.ResolveDefaults | resource_queries.py:84-91 | with no file and none of the six variables set, the settings are the defaults (client id "flightctl", verification on, everything else unset) |
| Config.EnvironmentOverridesFile | resource_queries.py:124-147 | a set variable decides its setting whatever the file holds |
| Config.ResolvedUrlsHaveNoTrailingSlash | resource_queries.py:101-110 | the resolved API and token URLs never end in '/', whichever layer they come from |
| TokenCache.ExchangeError | resource_queries.py:374-386 | every failure is an AuthenticationError, with the HTTP status, the exception text or the missing-key message; there is no error iff a token was granted with a numeric or absent lifetime |
| TokenCache.Refresh | resource_queries.py:349-373 | the endpoint is asked iff the cached token is empty or within 60 s of expiry; a reused token is returned unchanged; a failure leaves the cache as it was; a success caches the new token with expiry `now + expires_in` (default 3600) |
| TokenCache.ReusedWithinLifetime | resource_queries.py:352-354 | a token just obtained is served from the cache at every later time before `t0 + lifetime - 60` |
| TokenCache.CachedTokenServesLaterCalls | resource_queries.py:350-354 | any run of calls before the refresh point returns the cached token every time and never asks the endpoint |
| TokenCache.OneExchangeForABurst | resource_queries.py:349-373 | a burst of calls starting at a cache miss asks the endpoint exactly once, and every call returns the new token |
| TokenCache.RefreshAsWritten | resource_queries.py:369-371 | the refresh as written: a lifetime that is not a number raises only after the token was stored |
| TokenCache.AsWrittenFailureChangesToken | resource_queries.py:370-371 | as written, a refresh that raises AuthenticationError can leave a new token cached |
| TokenCache.AsWrittenDiffersOnlyOnBadLifetime | resource_queries.py:369-371 | the code as written and `Refresh` differ exactly on a response with a token different from the cached one and a non-numeric `expires_in` |
| Client.ConfigError | resource_queries.py:176-181 | a client can be built iff the API URL, the token URL and the refresh token are all truthy; otherwise the first missing one, in that order, is named |
| Client.TokenRequestFor | resource_queries.py:358-367 | the token POST goes to the token URL with the configured verification policy; the form holds grant_type=refresh_token, the client id and the refresh token (which is dropped when it is None) |
| Client.ResourcePathsDistinct | resource_queries.py:189-269 | the six query methods target six different collections |
| Client.KindQuery | resource_queries.py:217-227 | every query passes its selectors and limit through, except `query_events`, which has no label selector |
| Client.ListUrl | resource_queries.py:396 | the list URL ends in `/api/v1/<collection>` |
| Client.BearerHeaders | resource_queries.py:404-406 | every page request carries only the bearer token header |
| Client.FlightControlClient.constructor | resource_queries.py:171-185 | a client over a valid configuration starts with no token and expiry 0 |
| Client.FlightControlClient.Create | resource_queries.py:171-185 | construction fails iff a required setting is missing, with that setting's error; otherwise the client is new and its cache is empty |
| Client.FlightControlClient.GetAccessToken | resource_queries.py:349-386 | the cache fields and the result are those of `Refresh`; the token request is sent iff the cache cannot be reused |
| Client.FlightControlClient.QueryResources | resource_queries.py:388-464 | a token failure is raised before any page is requested; otherwise the result and the requests are those of the cursor walk over the collection URL with the bearer header |
| Client.FlightControlClient.RunConsoleCommand | resource_queries.py:271-344 | a failed input check means no token request and no commands; once the checks pass, the token request is sent iff the cached token cannot be reused; then a token failure means no commands; otherwise the console session's result and commands |
| Pagination.PageParams | resource_queries.py:414-420 | a request's params contain each selector iff it is truthy and the cursor iff it is truthy, with those values; the limit is never sent |
| Pagination.PyPrefix | resource_queries.py:455 | Python's `items[:k]` is a prefix of the items, of length min(k, n) for k >= 0 and max(n + k, 0) for k < 0 |
| Pagination.PageError | resource_queries.py:428-447 | 401 is an AuthenticationError; every other failure is an APIError; the status code is kept iff the failure was an HTTP status; the response text is kept iff the status is not 401, 403 or 404 |
| Pagination.StopIndex | resource_queries.py:449-461 | the walk stops at the first page that fails, reaches the limit, or has no top-level `continue`; every earlier page goes on |
| Pagination.Paginate | resource_queries.py:393-464 | the loop returns the reference outcome at the stopping page and sends exactly one request per page up to it |
| Pagination.OutcomeIsPrefixOfPages | resource_queries.py:449-464 | a result is a prefix of the items read, in arrival order; an error is the stopping page's error; every earlier page succeeded with a cursor |
| Pagination.UnlimitedReturnsEverything | resource_queries.py:454-464 | with no limit or limit 0 the walk succeeds iff the last page read succeeds, and then returns every item of every page read |
| Pagination.PositiveLimitTruncates | resource_queries.py:454-457 | with limit n > 0 the result is the first min(n, total) items read; it has fewer than n only when the pages ran out |
| Pagination.NegativeLimitDropsFromFirstPage | resource_queries.py:454-455 | a negative limit -m stops after the first page and drops its last m items |
| Pagination.RequestsFollowCursors | resource_queries.py:412-425 | request j goes to the URL with the headers and the verification policy, carries the set selectors, and carries a cursor iff j > 0, namely the `continue` page j - 1 returned |
| Pagination.RequestCount | resource_queries.py:412-462 | the walk sends at least one request and never more than the backend has pages |
| Wire.CollectedGrows | resource_queries.py:449-450 | later pages only extend the items already collected |
| Console.NonEmptyArgs | resource_queries.py:312 | filtering keeps only non-empty arguments, and changes nothing when none is empty |
| Console.NonEmptyArgsAppend | resource_queries.py:331 | filtering a concatenation filters each part |
| Console.LoginArgv | resource_queries.py:303-312 | the login argv is the CLI (if non-empty), `console login`, the TLS flag iff insecure, `--token` and the token (if non-empty); no argument is empty |
| Console.CommandArgv | resource_queries.py:323-331 | the command argv is the CLI (if non-empty), `console device/<name>`, the TLS flag iff insecure, `--` and the command's words; no argument is empty |
| Console.CommandWordsKeepCommand | resource_queries.py:323-328 | the words after `--` are exactly the command's non-whitespace characters, in order |
| Text.SplitKeepsNonSpace | resource_queries.py:328 | `split()` loses exactly the whitespace |
| Text.Strip | resource_queries.py:290-293 | `strip()` is empty iff the string is all whitespace; otherwise it neither starts nor ends with whitespace; it is the substring that starts after the leading whitespace, and what it leaves on either side is all whitespace |
| Text.SplitMatchesScan | resource_queries.py:328 | from any word boundary, `split()` yields the words a character-by-character scan closes: the maximal non-whitespace runs, in order |
| Text.SplitIsScan | resource_queries.py:328 | `split()` of the whole string is that scan from its start |
| Console.ValidateConsole | resource_queries.py:285-293 | nothing is rejected iff the CLI is found and neither the device name nor the command is blank; otherwise the first failing check, in that order, as a FlightControlError |
| Console.ConsoleSession | resource_queries.py:302-344 | login runs first, and the command runs iff login completed; the result is the stripped stdout iff both completed; a failed login is a FlightControlError naming its stderr; a login that cannot start raises OSError; any failure of the command is a FlightControlError |
| McpServer.ServerBase | mcp_server.py:9 | the server's base URL never ends in '/' |
| McpServer.AuthHeaders | mcp_server.py:12-19 | the headers are the bearer key and `Accept: application/json`; an unset or empty key raises RuntimeError |
| McpServer.RestGetError | mcp_server.py:33-38 | every failure is a RuntimeError naming the URL, with the status and body for an HTTP status error and the exception text otherwise |
| McpServer.RestGet | mcp_server.py:21-38 | a request is sent iff the key is valid; the result is the JSON body or the mapped RuntimeError |
| McpServer.ToContext | mcp_server.py:76-88 | a context carries the kind, the item's name, the item, a self link `/v1/<collection>/<name>` and the two timestamps |
| McpServer.ContextsOfItems | mcp_server.py:75-89 | context i wraps item i |
| McpServer.BaseParams | mcp_server.py:60-65 | the params always hold the limit and hold each selector iff it is non-empty |
| McpServer.QueryKind | mcp_server.py:60-93 | a tool's result and requests are the reference walk over `<base>/api/v1/<collection>` from the base params |
| McpServer.WalkPages | mcp_server.py:67-93 | the loop returns the key error, or the stopping page's error, or the contexts of every page read; it sends exactly the reference requests |
| McpServer.AppendContexts | mcp_server.py:75-89 | the inner loop appends one context per item, in order |
| McpServer.QueryDevices | mcp_server.py:40-93 | `query_devices` is the walk over the devices collection under `API_BASE_URL` right-stripped of '/' |
| McpServer.QueryFleets | mcp_server.py:95-148 | `query_fleets` is the walk over the fleets collection under `API_BASE_URL` right-stripped of '/' |
| McpServer.ContextsMatchItems | mcp_server.py:70-93 | the contexts are exactly the wrapped items of the pages read, in page order then item order |
| McpServer.NoTruncation | mcp_server.py:44-93 | a successful walk returns one context per item read, whatever the limit; it ends at the first page whose `metadata.continue` is missing or empty |
| McpServer.ServerRequestsShape | mcp_server.py:61-73 | every request carries the limit and the non-empty selectors; a cursor is carried iff j > 0, and then it is the `metadata.continue` of page j - 1 |
| McpServer.CursorLocationsDiffer | mcp_server.py:90 | a page with only a top-level `continue` ends this server's walk but not the client's |
| Cli.NetLoc | cli.py:29 | the network location never contains '/', '?' or '#' |
| Cli.NetLocOfHttps | cli.py:29 | for `https://<host><path>`, the network location is the host |
| Cli.DomainPrefix | cli.py:30 | the prefix is the whole host when it has no "api."; otherwise the host is (text without "api.") + "api." + prefix |
| Cli.DomainPrefixOfApiHost | cli.py:30 | `api.<domain>` gives `<domain>` |
| Cli.ArtifactUrl | cli.py:31 | the artifact URL starts with `https://cli-artifacts.` and ends with `.tar.gz` |
| Cli.CliUrlOfApiServer | cli.py:29-31 | an API server at `https://api.<domain>` downloads from `https://cli-artifacts.<domain>/<arch>/<os>/flightctl-<os>-<arch>.tar.gz` |
| Cli.InstallDir | cli.py:13 | the install directory is FLIGHTCTL_CLI_DIR when it is set (even to ''), otherwise `.local/bin` under the home directory |
| Cli.ProcessError | cli.py:35-36 | a non-zero exit raises CalledProcessError for that argv; a process that cannot start raises OSError |
| Cli.DownloadOutcome | cli.py:16-46 | when the CLI is on the search path, the CLI path becomes that location, nothing runs and PATH is unchanged; otherwise curl runs, then tar iff curl completed; the download succeeds iff both complete and the binary was extracted; PATH changes only on success, to `<install dir>:<old PATH>`; each failure raises its own error |
| Cli.InstalledDirComesFirst | cli.py:46 | after a download, PATH starts with the install directory |
| Cli.FlightctlCLI.constructor | cli.py:9-14 | the API URL is right-stripped of '/', arch and os are kept and default to amd64 and linux, and the CLI path is `<install dir>/flightctl` |
| Cli.FlightctlCLI.Download | cli.py:16-46 | the method's result, commands, CLI path and PATH are those of `DownloadOutcome` |

## Left out

- Logging, the token lock and asynchronous execution are not modelled. Each call is one atomic step.
- Reading files and the YAML parser are not modelled. The configuration file is the values of the keys the loader reads, and "file exists" is membership in a set of paths.
- The YAML type edge cases are not modelled: a non-string `server`, a `null` section, or a parse error caught after some fields were assigned. A file that cannot be read is the same as no file.
- Config.Configuration.LoadFile: a non-boolean `service.insecureSkipVerify` in the file is not modelled. The code tests its truthiness (resource_queries.py:162), so a YAML string such as "false" turns verification off and adds `--insecure-skip-tls-verify` to the console commands (lines 307 and 327); the model's setting holds only booleans.
- `str(Path(...))` normalisation of CA_CERT_PATH is not modelled. The path is kept as given.
- Client.FlightControlClient.Create: `FlightControlClient(config=None)` builds a fresh `Configuration()`. The model always passes the configuration in.
- `Path.home()` and `os.path.expanduser` when HOME is unset are not modelled. The home directory is an input.
- Text.IsSpace: only ASCII whitespace (and U+001C-U+001F) counts. `str.strip`/`str.split` also treat other Unicode whitespace as space.
- Config.IsTrueFlag: lower-casing is ASCII only.
- Client.FlightControlClient.GetAccessToken: the class runs the corrected `TokenCache.Refresh`, so it does not keep the token that the code stores before raising on a non-numeric `expires_in` (resource_queries.py:370-371). That behaviour is `TokenCache.RefreshAsWritten`; see Findings.
- Client.FlightControlClient.QueryResources: obtains its token through the corrected `TokenCache.Refresh`, as `GetAccessToken` does.
- Client.FlightControlClient.RunConsoleCommand: obtains its token through the corrected `TokenCache.Refresh`, as `GetAccessToken` does.
- Time is a real number of seconds, used as given. `time.time()` is the `now` input.
- The HTTP libraries are not modelled: timeouts, redirects, TLS handshakes. Each response is one of the `GetResponse` / `TokenResponse` cases.
- Pagination.PageError: with requests 2.27 or later, a body that is not JSON raises a RequestException subclass. That error would take the network-error message; the model, like the code's own `except ValueError` branch, reports it as invalid JSON.
- A page whose `items` is JSON `null`, or a body that is not an object, raises outside the mapped `try` in both servers. The model treats a missing or null `items` as an empty page.
- McpServer.ToContext: a JSON `null` is read as a missing key. An item whose `metadata` is `null` makes `query_devices`/`query_fleets` raise AttributeError (mcp_server.py:76, :131). The model reads it as no metadata and builds a context whose name is None.
- McpServer.WalkPages: a JSON `null` is read as a missing key. A list body whose `metadata` is `null` raises the same AttributeError (mcp_server.py:90, :145). The model reads it as no cursor and ends the walk with success.
- TokenCache.ExchangeError: a JSON `null` or a non-string is read as a missing key. An `access_token` that is `null` or not a string is cached and returned without error (resource_queries.py:370). Requests then carry its `str`, such as `Bearer None` for `null`, and a falsy value drops the token from the login argv (:312). The model's `accessToken` is a string or absent, and absent gives the missing-key error.
- A backend that answers with cursors forever is not modelled. Every backend is required to end with a page that stops the walk, so the loops terminate.
- McpServer: the fixed `timeout=30` and `verify=False` are not parameters of the model. `os.environ["API_BASE_URL"]` failing at import is not modelled either.
- The MCP tool registration (`@mcp.tool()`, `main.py`) is not modelled.
- Console: the debug log line that slices the argv is not modelled. It only logs.
- Cli.NetLoc: `urlparse` also removes leading control and space characters and any tab, CR or LF, and rejects malformed IPv6 brackets. Those steps are not modelled.
- Cli.FlightctlCLI.Download: the temporary directory's creation and removal, `os.makedirs`, `shutil.move`, `os.chmod` and the `print` are not modelled. Their failures are not modelled either.

## Findings

| source | as written | input that shows it | evidently intended | confidence | as-written member | corrected member |
|---|---|---|---|---|---|---|
| resource_queries.py:370-371 | `_access_token` is assigned before `now + data.get("expires_in", 3600)` is evaluated, so a token response whose `expires_in` is not a number raises AuthenticationError after the cached token was replaced (the expiry keeps its old value) | a fresh client at time 1000 receiving `{"access_token": "t", "expires_in": "3600"}` | a failed refresh leaves the cache unchanged | not executed | TokenCache.RefreshAsWritten, TokenCache.AsWrittenFailureChangesToken | TokenCache.Refresh |
