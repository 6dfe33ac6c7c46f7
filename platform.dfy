/** src/Docker/platform.go: the operating-system helpers. The operating system is
    Go's runtime.GOOS, passed in as `goos`; whether a program is on the PATH is
    passed in as a boolean. */
module Platform {

  const SupportedOS: set<string> := {"windows", "darwin", "linux"}

  predicate IsWindows(goos: string) { goos == "windows" }
  predicate IsMacOS(goos: string) { goos == "darwin" }
  predicate IsLinux(goos: string) { goos == "linux" }

  /** GetTempDir: the TEMP variable on Windows, /tmp everywhere else. */
  function GetTempDir(goos: string, tempVar: string): (dir: string)
    ensures !IsWindows(goos) ==> dir == "/tmp"
    ensures IsWindows(goos) ==> dir == tempVar
  {
    if IsWindows(goos) then tempVar else "/tmp"
  }

  /** GetOSName: a friendly name for the three known systems, the raw value otherwise. */
  function GetOSName(goos: string): (name: string)
    ensures goos !in SupportedOS ==> name == goos
    ensures goos in SupportedOS ==> name in {"Windows", "macOS", "Linux"} && name != goos
  {
    match goos
    case "windows" => "Windows"
    case "darwin" => "macOS"
    case "linux" => "Linux"
    case _ => goos
  }

  /** The three friendly names are distinct: GetOSName tells the known systems apart. */
  lemma GetOSNameInjectiveOnSupported(a: string, b: string)
    requires a in SupportedOS && b in SupportedOS && GetOSName(a) == GetOSName(b)
    ensures a == b
  {
  }

  /** The value of a Go `error`: nil, or its message. */
  datatype Error = Nil | Err(msg: string)

  /** CheckOSSupport: nil exactly for the three known systems; otherwise an error naming the system. */
  function CheckOSSupport(goos: string): (e: Error)
    ensures e == Nil <==> goos in SupportedOS
    ensures e != Nil ==> e.msg == "unsupported operating system: " + goos
  {
    if goos in SupportedOS then Nil else Err("unsupported operating system: " + GetOSName(goos))
  }

  /** GetShell: powershell, else cmd, on Windows; bash, else sh, elsewhere. */
  function GetShell(goos: string, hasPowershell: bool, hasBash: bool): (shell: string)
    ensures IsWindows(goos) ==> (shell == "powershell" <==> hasPowershell) && shell in {"powershell", "cmd"}
    ensures !IsWindows(goos) ==> (shell == "bash" <==> hasBash) && shell in {"bash", "sh"}
  {
    if IsWindows(goos) then (if hasPowershell then "powershell" else "cmd")
    else if hasBash then "bash" else "sh"
  }

  /** BuildDockerRunCommand: `run -d` followed by the arguments, unchanged. */
  function BuildDockerRunCommand(args: seq<string>): (argv: seq<string>)
    ensures |argv| == |args| + 2
    ensures argv[..2] == ["run", "-d"] && argv[2..] == args
  {
    ["run", "-d"] + args
  }

  /** Different arguments give different commands. */
  lemma BuildDockerRunCommandInjective(a: seq<string>, b: seq<string>)
    requires BuildDockerRunCommand(a) == BuildDockerRunCommand(b)
    ensures a == b
  {
    assert a == BuildDockerRunCommand(a)[2..];
  }

  /** filepath.Join of a directory and a file name: an empty directory is dropped,
      and the separator is the system's. */
  function JoinPath(goos: string, dir: string, name: string): (path: string)
    ensures dir == "" ==> path == name
    ensures dir != "" ==>
      (|path| == |dir| + 1 + |name| && path[..|dir|] == dir && path[|dir| + 1..] == name)
  {
    if dir == "" then name else dir + (if IsWindows(goos) then "\\" else "/") + name
  }
}
