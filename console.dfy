/** The console part of FlightControlClient (`run_console_command`): the
    input checks, the two argument vectors handed to the flightctl CLI, and
    how the outcomes of the two processes become the result. Whether the CLI
    is on the search path and what each process does are inputs. */
module Console {
  import opened Wrappers
  import opened Text
  import opened Errors

  const InsecureFlag := "--insecure-skip-tls-verify"

  /** `[arg for arg in args if arg]`: the arguments that are not empty, in
      order. */
  function NonEmptyArgs(args: seq<string>): (r: seq<string>)
    ensures |r| <= |args|
    ensures forall i :: 0 <= i < |r| ==> r[i] != []
    ensures (forall i :: 0 <= i < |args| ==> args[i] != []) ==> r == args
  {
    if args == [] then []
    else (if args[0] == [] then [] else [args[0]]) + NonEmptyArgs(args[1..])
  }

  /** Filtering a concatenation filters each part. */
  lemma {:induction false} NonEmptyArgsAppend(a: seq<string>, b: seq<string>)
    ensures NonEmptyArgs(a + b) == NonEmptyArgs(a) + NonEmptyArgs(b)
  {
    if a == [] {
      assert a + b == b;
    } else {
      assert (a + b)[0] == a[0];
      assert (a + b)[1..] == a[1..] + b;
      NonEmptyArgsAppend(a[1..], b);
    }
  }

  /** The TLS flag as its own argument, or nothing. */
  function FlagArgs(insecure: bool): seq<string> {
    if insecure then [InsecureFlag] else []
  }

  /** The flag slot, with its empty string dropped, is the flag or nothing. */
  lemma FlagFiltered(insecure: bool)
    ensures NonEmptyArgs([if insecure then InsecureFlag else ""]) == FlagArgs(insecure)
  {
    var slot: seq<string> := [if insecure then InsecureFlag else ""];
    assert slot[1..] == [];
  }

  /** Filtering an argument vector of five parts filters each part. */
  lemma FilterParts(a: seq<string>, b: seq<string>, c: seq<string>, d: seq<string>, e: seq<string>)
    ensures NonEmptyArgs(a + b + c + d + e)
      == NonEmptyArgs(a) + NonEmptyArgs(b) + NonEmptyArgs(c) + NonEmptyArgs(d) + NonEmptyArgs(e)
  {
    NonEmptyArgsAppend(a + b + c + d, e);
    NonEmptyArgsAppend(a + b + c, d);
    NonEmptyArgsAppend(a + b, c);
    NonEmptyArgsAppend(a, b);
  }

  /** The login command: the CLI, `console login`, the TLS flag when the
      configuration skips verification, and `--token` with the access
      token; an empty CLI path or token is dropped. */
  function LoginArgv(cli: string, insecure: bool, token: string): (r: seq<string>)
    ensures r == NonEmptyArgs([cli]) + ["console", "login"] + FlagArgs(insecure) + ["--token"] + NonEmptyArgs([token])
    ensures forall i :: 0 <= i < |r| ==> r[i] != []
  {
    var flag := if insecure then InsecureFlag else "";
    FlagFiltered(insecure);
    FilterParts([cli], ["console", "login"], [flag], ["--token"], [token]);
    assert NonEmptyArgs(["console", "login"]) == ["console", "login"];
    assert NonEmptyArgs(["--token"]) == ["--token"];
    NonEmptyArgs([cli] + ["console", "login"] + [flag] + ["--token"] + [token])
  }

  /** The command: the CLI, `console device/<name>`, the TLS flag, `--`, and
      the words of the command; nothing but an empty CLI path is dropped,
      and the words after `--` are the command's non-whitespace characters. */
  function CommandArgv(cli: string, insecure: bool, device: string, command: string): (r: seq<string>)
    ensures r == NonEmptyArgs([cli]) + ["console", "device/" + device] + FlagArgs(insecure) + ["--"] + Split(command)
    ensures forall i :: 0 <= i < |r| ==> r[i] != []
  {
    var flag := if insecure then InsecureFlag else "";
    FlagFiltered(insecure);
    FilterParts([cli], ["console", "device/" + device], [flag], ["--"], Split(command));
    assert NonEmptyArgs(["console", "device/" + device]) == ["console", "device/" + device];
    assert NonEmptyArgs(["--"]) == ["--"];
    assert NonEmptyArgs(Split(command)) == Split(command);
    NonEmptyArgs([cli] + ["console", "device/" + device] + [flag] + ["--"] + Split(command))
  }

  /** The words after `--` carry exactly the non-whitespace characters of
      the command, in order. */
  lemma CommandWordsKeepCommand(cli: string, insecure: bool, device: string, command: string)
    ensures var r := CommandArgv(cli, insecure, device, command);
      var words := r[|r| - |Split(command)|..];
      words == Split(command) && Concat(words) == NonSpaceFrom(command, 0)
  {
    SplitKeepsNonSpace(command, 0);
  }

  /** The checks before anything runs, in the source's order: the CLI is on
      the search path, the device name is not blank, the command is not
      blank. */
  function ValidateConsole(cliFound: bool, device: string, command: string): (e: Option<Error>)
    ensures e.None? <==> cliFound && !IsBlank(device) && !IsBlank(command)
    ensures e.Some? ==> e.value.FlightControlError?
    ensures !cliFound ==> e == Some(FlightControlError("flightctl CLI not found. Please ensure it's installed and in PATH."))
    ensures cliFound && IsBlank(device) ==> e == Some(FlightControlError("Device name cannot be empty"))
    ensures cliFound && !IsBlank(device) && IsBlank(command) ==> e == Some(FlightControlError("Command cannot be empty"))
  {
    if !cliFound then Some(FlightControlError("flightctl CLI not found. Please ensure it's installed and in PATH."))
    else if device == [] || Strip(device) == [] then Some(FlightControlError("Device name cannot be empty"))
    else if command == [] || Strip(command) == [] then Some(FlightControlError("Command cannot be empty"))
    else None
  }

  /** How `subprocess.run(..., check=True)` ends. */
  datatype ProcessResult =
    | Completed(stdout: string)
    /** Non-zero exit: CalledProcessError with the captured stderr. */
    | ExitFailure(returnCode: int, stderr: string)
    /** The executable could not be started. */
    | LaunchFailure(detail: string)

  /** The result and the argument vectors run, in order. */
  datatype Session = Session(result: Result<string, Error>, commands: seq<seq<string>>)

  /** Log in with the token, then run the command, given what each process
      does. */
  function ConsoleSession(cli: string, insecure: bool, device: string, command: string, token: string,
                          login: ProcessResult, run: ProcessResult): (s: Session)
    ensures s.commands == [LoginArgv(cli, insecure, token)] + (if login.Completed? then [CommandArgv(cli, insecure, device, command)] else [])
    ensures s.result.Ok? <==> login.Completed? && run.Completed?
    ensures s.result.Ok? ==> s.result.value == Strip(run.stdout)
    ensures login.ExitFailure? ==> s.result == Err(FlightControlError("Failed to login to flightctl console: " + login.stderr))
    ensures login.LaunchFailure? ==> s.result == Err(OSError(login.detail))
    ensures login.Completed? && s.result.Err? ==> s.result.error.FlightControlError?
  {
    var loginArgv := LoginArgv(cli, insecure, token);
    match login
    case ExitFailure(_, stderr) => Session(Err(FlightControlError("Failed to login to flightctl console: " + stderr)), [loginArgv])
    case LaunchFailure(detail) => Session(Err(OSError(detail)), [loginArgv])
    case Completed(_) =>
      var commands := [loginArgv, CommandArgv(cli, insecure, device, command)];
      match run
      case Completed(stdout) => Session(Ok(Strip(stdout)), commands)
      case ExitFailure(_, stderr) =>
        Session(Err(FlightControlError("Console command failed on device '" + device + "': " + stderr)), commands)
      case LaunchFailure(detail) =>
        Session(Err(FlightControlError("Unexpected error running console command: " + detail)), commands)
  }
}
