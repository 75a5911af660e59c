/** FlightctlCLI (cli.py): where the flightctl binary lives, which artifact
    URL serves it for a given API server, and the download that installs it.
    The search path lookup, the temporary directory, the two processes and
    the file test are inputs; the environment's PATH is an input and an
    output. */
module Cli {
  import opened Wrappers
  import opened Text
  import opened Errors
  import opened Console

  const DefaultArch := "amd64"
  const DefaultOs := "linux"

  // -----------------------------------------------------------------------
  // urllib.parse.urlparse(url).netloc

  predicate IsAsciiLetter(c: char) {
    'a' <= c <= 'z' || 'A' <= c <= 'Z'
  }

  /** The characters a URL scheme may contain. */
  predicate SchemeChar(c: char) {
    IsAsciiLetter(c) || '0' <= c <= '9' || c == '+' || c == '-' || c == '.'
  }

  /** The URL without its scheme and colon, when it starts with a scheme:
      a letter, then scheme characters, up to the first ':'. */
  function AfterScheme(url: string): (rest: string)
    ensures |rest| <= |url|
  {
    match IndexOf(url, ":")
    case None => url
    case Some(i) =>
      if i > 0 && IsAsciiLetter(url[0]) && forall j :: 0 <= j < i ==> SchemeChar(url[j]) then url[i + 1..] else url
  }

  predicate NetLocEnd(c: char) {
    c == '/' || c == '?' || c == '#'
  }

  /** The first position at or after i holding '/', '?' or '#', or the
      length of s when there is none. */
  function DelimFrom(s: string, i: nat): (d: nat)
    requires i <= |s|
    ensures i <= d <= |s|
    ensures forall j :: i <= j < d ==> !NetLocEnd(s[j])
    ensures d < |s| ==> NetLocEnd(s[d])
    decreases |s| - i
  {
    if i == |s| || NetLocEnd(s[i]) then i else DelimFrom(s, i + 1)
  }

  /** The network location: what follows "//" after the scheme, up to the
      path, query or fragment; empty when the URL has no "//". */
  function NetLoc(url: string): (n: string)
    ensures forall j :: 0 <= j < |n| ==> !NetLocEnd(n[j])
  {
    var rest := AfterScheme(url);
    if StartsWith(rest, "//") then rest[2..DelimFrom(rest, 2)] else ""
  }

  /** For `https://<host><path>` with a path that is empty or absolute, the
      network location is the host, whatever ':' the host contains. */
  lemma NetLocOfHttps(host: string, path: string)
    requires forall j :: 0 <= j < |host| ==> !NetLocEnd(host[j])
    requires path == [] || path[0] == '/'
    ensures NetLoc("https://" + host + path) == host
  {
    var url := "https://" + host + path;
    assert url[5..6] == ":";
    assert OccursAt(url, ":", 5);
    forall j: nat | j < 5
      ensures !OccursAt(url, ":", j)
    {
      assert url[j..j + 1][0] == url[j];
    }
    var colon := IndexOf(url, ":");
    assert colon.Some? && colon.value <= 5;
    assert colon == Some(5);
    var rest := url[6..];
    assert rest == "//" + host + path;
    var d := DelimFrom(rest, 2);
    assert forall j :: 2 <= j < 2 + |host| ==> rest[j] == host[j - 2];
    if path != [] {
      assert rest[2 + |host|] == '/';
    }
    assert d == 2 + |host|;
    assert rest[2..d] == host;
  }

  // -----------------------------------------------------------------------
  // The artifact URL

  /** `domain.split("api.", 1)[-1]`: what follows the first "api.", or the
      whole host when it has none. */
  function DomainPrefix(host: string): (p: string)
    ensures IndexOf(host, "api.").None? ==> p == host
    ensures IndexOf(host, "api.").Some? ==>
      var i := IndexOf(host, "api.").value;
      host == host[..i] + "api." + p && forall j: nat :: j < i ==> !OccursAt(host, "api.", j)
  {
    match IndexOf(host, "api.")
    case None => host
    case Some(i) =>
      assert host == host[..i] + host[i..i + 4] + host[i + 4..];
      host[i + 4..]
  }

  /** A host that starts with "api." loses exactly that. */
  lemma DomainPrefixOfApiHost(domain: string)
    ensures DomainPrefix("api." + domain) == domain
  {
    assert OccursAt("api." + domain, "api.", 0);
  }

  /** `https://cli-artifacts.<prefix>/<arch>/<os>/flightctl-<os>-<arch>.tar.gz` */
  function ArtifactUrl(prefix: string, arch: string, osName: string): (u: string)
    ensures StartsWith(u, "https://cli-artifacts.")
    ensures EndsWith(u, ".tar.gz")
  {
    var u := "https://cli-artifacts." + prefix + "/" + arch + "/" + osName + "/flightctl-" + osName + "-" + arch + ".tar.gz";
    EndsWithAppended("https://cli-artifacts." + prefix + "/" + arch + "/" + osName + "/flightctl-" + osName + "-" + arch, ".tar.gz");
    u
  }

  /** The URL an API server's CLI is fetched from. */
  function CliUrl(apiUrl: string, arch: string, osName: string): string {
    ArtifactUrl(DomainPrefix(NetLoc(apiUrl)), arch, osName)
  }

  /** For an API server at `https://api.<domain>`, the artifact is served
      from `cli-artifacts.<domain>`. */
  lemma CliUrlOfApiServer(domain: string, path: string, arch: string, osName: string)
    requires forall j :: 0 <= j < |domain| ==> !NetLocEnd(domain[j])
    requires path == [] || path[0] == '/'
    ensures CliUrl("https://api." + domain + path, arch, osName)
      == "https://cli-artifacts." + domain + "/" + arch + "/" + osName + "/flightctl-" + osName + "-" + arch + ".tar.gz"
  {
    assert "https://api." + domain + path == "https://" + ("api." + domain) + path;
    NetLocOfHttps("api." + domain, path);
    DomainPrefixOfApiHost(domain);
  }

  // -----------------------------------------------------------------------
  // The download

  /** `os.environ.get("FLIGHTCTL_CLI_DIR", os.path.expanduser("~/.local/bin"))`:
      the variable when it is set, even to the empty string, otherwise
      `.local/bin` under the home directory. */
  function InstallDir(cliDirEnv: Option<string>, home: string): (d: string)
    ensures cliDirEnv.Some? ==> d == cliDirEnv.value
    ensures cliDirEnv.None? ==> EndsWith(d, "/.local/bin") && StartsWith(d, RStripSlash(home))
  {
    match cliDirEnv
    case Some(dir) => dir
    case None =>
      var d := RStripSlash(home) + "/.local/bin";
      EndsWithAppended(RStripSlash(home), "/.local/bin");
      assert d[..|RStripSlash(home)|] == RStripSlash(home);
      d
  }

  function CurlArgv(tarPath: string, url: string): seq<string> {
    ["curl", "-kfLo", tarPath, url]
  }

  function TarArgv(tarPath: string, tmpdir: string): seq<string> {
    ["tar", "-xvf", tarPath, "-C", tmpdir]
  }

  /** What `subprocess.run(argv, check=True)` raises when it does not
      complete. */
  function ProcessError(argv: seq<string>, p: ProcessResult): (e: Error)
    requires !p.Completed?
    ensures p.ExitFailure? ==> e == CalledProcessError(argv)
    ensures p.LaunchFailure? ==> e == OSError(p.detail)
  {
    if p.ExitFailure? then CalledProcessError(argv) else OSError(p.detail)
  }

  /** The outcome of a download: what it returns or raises, the commands it
      ran, the CLI location afterwards and the PATH afterwards. */
  datatype Install = Install(result: Result<(), Error>, commands: seq<seq<string>>, cliPath: string, path: Option<string>)

  /** `download`: `which` is what the search path lookup finds, `tmpdir` the
      temporary directory, `curl` and `tar` how the two processes end,
      `extracted` whether the archive held the binary and `path` the PATH
      before the call. */
  function DownloadOutcome(cliPath: string, apiUrl: string, arch: string, osName: string, installDir: string,
                           which: Option<string>, tmpdir: string, curl: ProcessResult, tar: ProcessResult,
                           extracted: bool, path: Option<string>): (o: Install)
    ensures Truthy(which) ==> o == Install(Ok(()), [], which.value, path)
    ensures !Truthy(which) ==> o.cliPath == cliPath
    ensures !Truthy(which) ==>
      var tarPath := PathJoin(tmpdir, "flightctl.tar.gz");
      o.commands == [CurlArgv(tarPath, CliUrl(apiUrl, arch, osName))] + (if curl.Completed? then [TarArgv(tarPath, tmpdir)] else [])
    ensures o.result.Ok? <==> Truthy(which) || (curl.Completed? && tar.Completed? && extracted)
    ensures o.path != path ==> !Truthy(which) && o.result.Ok?
    ensures !Truthy(which) && o.result.Ok? ==> o.path == Some(installDir + ":" + path.GetOr(""))
    ensures !Truthy(which) && !curl.Completed? ==>
      o.result == Err(ProcessError(CurlArgv(PathJoin(tmpdir, "flightctl.tar.gz"), CliUrl(apiUrl, arch, osName)), curl))
    ensures !Truthy(which) && curl.Completed? && !tar.Completed? ==>
      o.result == Err(ProcessError(TarArgv(PathJoin(tmpdir, "flightctl.tar.gz"), tmpdir), tar))
    ensures !Truthy(which) && curl.Completed? && tar.Completed? && !extracted ==>
      o.result == Err(RuntimeError("Failed to extract flightctl binary"))
  {
    if Truthy(which) then Install(Ok(()), [], which.value, path)
    else
      var tarPath := PathJoin(tmpdir, "flightctl.tar.gz");
      var fetch := CurlArgv(tarPath, CliUrl(apiUrl, arch, osName));
      var unpack := TarArgv(tarPath, tmpdir);
      if !curl.Completed? then Install(Err(ProcessError(fetch, curl)), [fetch], cliPath, path)
      else if !tar.Completed? then Install(Err(ProcessError(unpack, tar)), [fetch, unpack], cliPath, path)
      else if !extracted then Install(Err(RuntimeError("Failed to extract flightctl binary")), [fetch, unpack], cliPath, path)
      else Install(Ok(()), [fetch, unpack], cliPath, Some(installDir + ":" + path.GetOr("")))
  }

  /** After a successful download the install directory is searched first. */
  lemma InstalledDirComesFirst(cliPath: string, apiUrl: string, arch: string, osName: string, installDir: string,
                               tmpdir: string, curl: ProcessResult, tar: ProcessResult, extracted: bool, path: Option<string>)
    requires DownloadOutcome(cliPath, apiUrl, arch, osName, installDir, None, tmpdir, curl, tar, extracted, path).result.Ok?
    ensures var o := DownloadOutcome(cliPath, apiUrl, arch, osName, installDir, None, tmpdir, curl, tar, extracted, path);
      o.path.Some? && StartsWith(o.path.value, installDir + ":")
  {
    var p := installDir + ":" + path.GetOr("");
    assert p[..|installDir + ":"|] == installDir + ":";
  }

  class FlightctlCLI {
    const apiUrl: string
    const arch: string
    const osName: string
    const installDir: string
    var cliPath: string

    /** `FlightctlCLI(api_url, arch, os_name)`: `cliDirEnv` is
        `FLIGHTCTL_CLI_DIR` and `home` the home directory; `arch` and
        `osName` default, as in the source, to `DefaultArch` and `DefaultOs`. */
    constructor (apiUrl: string, cliDirEnv: Option<string>, home: string,
                 arch: string := DefaultArch, osName: string := DefaultOs)
      ensures this.apiUrl == RStripSlash(apiUrl) && this.arch == arch && this.osName == osName
      ensures installDir == InstallDir(cliDirEnv, home)
      ensures cliPath == PathJoin(installDir, "flightctl")
    {
      this.apiUrl := RStripSlash(apiUrl);
      this.arch := arch;
      this.osName := osName;
      installDir := InstallDir(cliDirEnv, home);
      cliPath := PathJoin(InstallDir(cliDirEnv, home), "flightctl");
    }

    /** `download`: skip when the CLI is on the search path, otherwise
        fetch the archive, unpack it, install the binary and put the install
        directory at the front of PATH. */
    method Download(which: Option<string>, tmpdir: string, curl: ProcessResult, tar: ProcessResult,
                    extracted: bool, path: Option<string>)
      returns (r: Result<(), Error>, commands: seq<seq<string>>, newPath: Option<string>)
      modifies this
      ensures var o := DownloadOutcome(old(cliPath), apiUrl, arch, osName, installDir, which, tmpdir, curl, tar, extracted, path);
        r == o.result && commands == o.commands && cliPath == o.cliPath && newPath == o.path
    {
      newPath := path;
      if Truthy(which) {
        cliPath := which.value;
        return Ok(()), [], newPath;
      }
      var domain := NetLoc(apiUrl);
      var prefix := DomainPrefix(domain);
      var url := ArtifactUrl(prefix, arch, osName);
      var tarPath := PathJoin(tmpdir, "flightctl.tar.gz");
      var fetch := CurlArgv(tarPath, url);
      commands := [fetch];
      if !curl.Completed? {
        return Err(ProcessError(fetch, curl)), commands, newPath;
      }
      var unpack := TarArgv(tarPath, tmpdir);
      commands := commands + [unpack];
      if !tar.Completed? {
        return Err(ProcessError(unpack, tar)), commands, newPath;
      }
      if !extracted {
        return Err(RuntimeError("Failed to extract flightctl binary")), commands, newPath;
      }
      newPath := Some(installDir + ":" + path.GetOr(""));
      r := Ok(());
    }
  }
}
