/**
 * The process lifecycle manager: which extra arguments each terminal needs so
 * that its window can be recognised, which app-id that window will carry, and
 * how the argument vector of the spawned terminal is put together.
 * The operating system's spawn is abstracted into a SpawnOutcome parameter.
 */
module Process {
  import opened Wrappers

  /** Process ids are 32-bit unsigned integers. */
  type u32 = x: int | 0 <= x < 0x1_0000_0000

  /** The app-id injected into every terminal that accepts one. */
  const QuakeAppId: string := "cosmic-ext-quake-terminal"

  /** ghostty on GTK ignores any class override and keeps this app-id. */
  const GhosttyAppId: string := "com.mitchellh.ghostty"

  datatype SpawnResult = SpawnResult(pid: u32, appId: string)

  /** What the operating system did with a spawn request. */
  datatype SpawnOutcome = Spawned(pid: u32) | SpawnFailed(reason: string)

  /** The text after the last '/' of a command (all of it when it has no '/'). */
  function Basename(command: string): (b: string)
    ensures |b| <= |command|
    decreases |command|
  {
    if |command| == 0 then ""
    else if command[|command| - 1] == '/' then ""
    else Basename(command[..|command| - 1]) + [command[|command| - 1]]
  }

  lemma {:induction false} BasenameHasNoSlash(command: string)
    ensures '/' !in Basename(command)
    decreases |command|
  {
    if |command| > 0 && command[|command| - 1] != '/' {
      BasenameHasNoSlash(command[..|command| - 1]);
    }
  }

  lemma {:induction false} BasenameIsSuffix(command: string)
    ensures |Basename(command)| <= |command|
    ensures command[|command| - |Basename(command)|..] == Basename(command)
    decreases |command|
  {
    if |command| > 0 && command[|command| - 1] != '/' {
      var prefix := command[..|command| - 1];
      BasenameIsSuffix(prefix);
      var n := |Basename(prefix)|;
      calc {
        command[|command| - |Basename(command)|..];
        command[|prefix| - n..|prefix|] + [command[|command| - 1]];
        { assert command[|prefix| - n..|prefix|] == prefix[|prefix| - n..]; }
        Basename(prefix) + [command[|command| - 1]];
      }
    }
  }

  /** When the command holds a '/', the basename starts right after one. */
  lemma {:induction false} BasenameFollowsSlash(command: string)
    requires '/' in command
    ensures |Basename(command)| < |command|
    ensures command[|command| - |Basename(command)| - 1] == '/'
    decreases |command|
  {
    if command[|command| - 1] != '/' {
      var prefix := command[..|command| - 1];
      assert '/' in prefix by {
        var i :| 0 <= i < |command| && command[i] == '/';
        assert prefix[i] == '/';
      }
      BasenameFollowsSlash(prefix);
    }
  }

  lemma {:induction false} BasenameWithoutSlash(command: string)
    requires '/' !in command
    ensures Basename(command) == command
    decreases |command|
  {
    if |command| > 0 {
      var prefix := command[..|command| - 1];
      assert '/' !in prefix by {
        forall i | 0 <= i < |prefix| ensures prefix[i] != '/' {
          assert prefix[i] == command[i];
        }
      }
      BasenameWithoutSlash(prefix);
      assert prefix + [command[|command| - 1]] == command;
    }
  }

  /** The arguments to inject and the app-id to track, chosen by the command's basename. */
  function GetClassArgs(command: string): (r: (seq<string>, string))
    ensures r.1 == QuakeAppId || r.1 == GhosttyAppId
    ensures r.1 == QuakeAppId ==> QuakeAppId in r.0 || "--app-id=" + QuakeAppId in r.0
  {
    match Basename(command)
    case "ghostty" => (["--gtk-single-instance=false"], GhosttyAppId)
    case "foot" => (["--app-id=" + QuakeAppId], QuakeAppId)
    case "cosmic-term" => (["--class", QuakeAppId], QuakeAppId)
    case "alacritty" => (["--class", QuakeAppId], QuakeAppId)
    case "kitty" => (["--class", QuakeAppId], QuakeAppId)
    case "wezterm" => (["--class", QuakeAppId], QuakeAppId)
    case _ => (["--class", QuakeAppId], QuakeAppId)
  }

  /** The app-id the window of the given terminal command will register. */
  function GetAppId(command: string): (id: string)
    ensures id == QuakeAppId || id == GhosttyAppId
  {
    GetClassArgs(command).1
  }

  /** Every terminal is tracked by the quake app-id, except ghostty. */
  lemma AppIdByBasename(command: string)
    ensures GetAppId(command) == GhosttyAppId <==> Basename(command) == "ghostty"
    ensures GetAppId(command) == QuakeAppId <==> Basename(command) != "ghostty"
  {
  }

  /** The argument vector of the spawned terminal: the injected arguments, then the user's. */
  function SpawnArgv(command: string, args: seq<string>): (argv: seq<string>)
    ensures |argv| == |GetClassArgs(command).0| + |args|
    ensures argv[..|GetClassArgs(command).0|] == GetClassArgs(command).0
    ensures argv[|GetClassArgs(command).0|..] == args
  {
    GetClassArgs(command).0 + args
  }

  /**
   * Builds the argument vector the way the command builder is filled (class
   * arguments first, then the user's) and reports the spawn. `os` is what the
   * operating system did with the request.
   */
  method SpawnTerminal(command: string, args: seq<string>, os: SpawnOutcome)
    returns (result: Option<SpawnResult>, argv: seq<string>)
    ensures argv == SpawnArgv(command, args)
    ensures result.Some? <==> os.Spawned?
    ensures result.Some? ==> result.value.pid == os.pid && result.value.appId == GetAppId(command)
  {
    var (classArgs, appId) := GetClassArgs(command);
    argv := [];
    argv := argv + classArgs;
    argv := argv + args;
    match os {
      case Spawned(pid) =>
        result := Some(SpawnResult(pid, appId));
      case SpawnFailed(_) =>
        result := None;
    }
  }

  lemma GhosttyClassArgs(command: string)
    requires Basename(command) == "ghostty"
    ensures GetClassArgs(command) == (["--gtk-single-instance=false"], "com.mitchellh.ghostty")
  {
  }

  lemma FootClassArgs(command: string)
    requires Basename(command) == "foot"
    ensures GetClassArgs(command) == (["--app-id=cosmic-ext-quake-terminal"], QuakeAppId)
  {
    assert "--app-id=" + QuakeAppId == "--app-id=cosmic-ext-quake-terminal";
  }

  /** cosmic-term, alacritty, kitty, wezterm and every unknown terminal get `--class`. */
  lemma ClassFlagForOtherTerminals(command: string)
    requires Basename(command) != "ghostty" && Basename(command) != "foot"
    ensures GetClassArgs(command) == (["--class", QuakeAppId], QuakeAppId)
  {
  }

  /** Only the part after the last '/' matters. */
  lemma {:induction false} BasenameOfPath(dir: string, b: string)
    requires '/' !in b
    ensures Basename(dir + "/" + b) == b
  {
    var path := dir + "/" + b;
    var r := Basename(path);
    BasenameHasNoSlash(path);
    BasenameIsSuffix(path);
    BasenameFollowsSlash(path);
    assert path[|dir|] == '/';
    assert path[|path| - |b|..] == b;
  }

  lemma ClassArgsUseBasename(dir: string, b: string)
    requires '/' !in b
    ensures GetClassArgs(dir + "/" + b) == GetClassArgs(b)
  {
    BasenameOfPath(dir, b);
    BasenameWithoutSlash(b);
  }

  /** A trailing '/' leaves an empty basename, which falls to the `--class` case. */
  lemma TrailingSlashGetsClassFlag(dir: string)
    ensures GetClassArgs(dir + "/") == (["--class", QuakeAppId], QuakeAppId)
  {
    assert (dir + "/")[|dir + "/"| - 1] == '/';
    assert Basename(dir + "/") == "";
  }
}
