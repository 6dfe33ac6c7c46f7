/** npm/InstallController.js: the npm package's entry point. It picks the
    prebuilt binary for Node's os.platform() and os.arch(), runs it with the
    launcher's own arguments and environment plus one marker variable, and
    exits with the child's exit code. The spawn itself is I/O: the model
    computes what is spawned and takes the child's exit code as a parameter. */
module Launcher {

  datatype Option<T> = None | Some(value: T)

  /** The table of supported platforms, keyed by platform, then by architecture. */
  const Supported: map<string, map<string, string>> := map[
    "linux" := map["x64" := "containdb_linux_amd64"],
    "darwin" := map["x64" := "containdb_darwin_amd64", "arm64" := "containdb_darwin_arm64"],
    "win32" := map["x64" := "containdb_windows_amd64.exe"]]

  /** The two-level lookup, which fails when either key is missing. */
  function BinaryFor(platform: string, arch: string): (r: Option<string>)
    ensures r.Some? <==> platform in Supported && arch in Supported[platform]
    ensures r.Some? ==> r.value == Supported[platform][arch]
  {
    if platform in Supported && arch in Supported[platform] then Some(Supported[platform][arch])
    else None
  }

  const InstallSourceKey := "CONTAINDB_INSTALL_SOURCE"

  /** `{ ...process.env, CONTAINDB_INSTALL_SOURCE: 'npm' }`. */
  function ChildEnv(env: map<string, string>): (r: map<string, string>)
    ensures r.Keys == env.Keys + {InstallSourceKey}
    ensures r[InstallSourceKey] == "npm"
    ensures forall k :: k in env && k != InstallSourceKey ==> r[k] == env[k]
  {
    env[InstallSourceKey := "npm"]
  }

  /** `process.argv.slice(2)`: everything after the node executable and the script. */
  function ForwardedArgs(argv: seq<string>): (r: seq<string>)
    ensures |argv| <= 2 ==> r == []
    ensures |argv| > 2 ==> |r| == |argv| - 2 && argv == argv[..2] + r
  {
    if |argv| <= 2 then [] else argv[2..]
  }

  /** path.join(__dirname, 'bin', name) for a directory without a trailing separator. */
  function BinaryPath(platform: string, dir: string, name: string): (path: string)
    ensures var sep := if platform == "win32" then '\\' else '/';
      path == dir + [sep] + "bin" + [sep] + name
  {
    var sep := if platform == "win32" then "\\" else "/";
    dir + sep + "bin" + sep + name
  }

  datatype Spawn = Spawn(path: string, args: seq<string>, env: map<string, string>)

  /** What the launcher does: the child it spawns (if any) and the status it exits with. */
  datatype Launch = Launch(child: Option<Spawn>, exitCode: int)

  /** The launcher run, given the child's exit code (None when the child ends by a
      signal, which Node reports as a null code and process.exit turns into 0). */
  function RunLauncher(platform: string, arch: string, dir: string, argv: seq<string>,
                       env: map<string, string>, childCode: Option<int>): (r: Launch)
    ensures r.child.None? <==> !(platform in Supported && arch in Supported[platform])
    ensures r.child.None? ==> r.exitCode == 1
    ensures r.child.Some? ==>
      && r.child.value.path == BinaryPath(platform, dir, Supported[platform][arch])
      && r.child.value.args == ForwardedArgs(argv)
      && r.child.value.env == ChildEnv(env)
      && r.exitCode == (if childCode.Some? then childCode.value else 0)
  {
    match BinaryFor(platform, arch)
    case None => Launch(None, 1)
    case Some(name) =>
      Launch(Some(Spawn(BinaryPath(platform, dir, name), ForwardedArgs(argv), ChildEnv(env))),
             match childCode case None => 0 case Some(c) => c)
  }

  /** Exactly four platform and architecture pairs are supported, each with its own binary. */
  lemma SupportedPairs(platform: string, arch: string)
    ensures BinaryFor(platform, arch).Some? <==>
      (platform, arch) in {("linux", "x64"), ("darwin", "x64"), ("darwin", "arm64"), ("win32", "x64")}
    ensures BinaryFor("linux", "x64") == Some("containdb_linux_amd64")
    ensures BinaryFor("darwin", "x64") == Some("containdb_darwin_amd64")
    ensures BinaryFor("darwin", "arm64") == Some("containdb_darwin_arm64")
    ensures BinaryFor("win32", "x64") == Some("containdb_windows_amd64.exe")
  {
  }

  /** An unsupported pair spawns nothing and exits with status 1. */
  lemma UnsupportedExits(platform: string, arch: string, dir: string, argv: seq<string>,
                         env: map<string, string>, childCode: Option<int>)
    requires BinaryFor(platform, arch).None?
    ensures RunLauncher(platform, arch, dir, argv, env, childCode) == Launch(None, 1)
  {
  }

  /** A supported pair spawns its binary from the package's bin directory with the
      forwarded arguments and the marked environment, and passes the child's code on. */
  lemma SupportedSpawns(platform: string, arch: string, dir: string, argv: seq<string>,
                        env: map<string, string>, childCode: Option<int>)
    requires BinaryFor(platform, arch).Some?
    ensures var l := RunLauncher(platform, arch, dir, argv, env, childCode);
      && l.child.Some?
      && l.child.value.path == BinaryPath(platform, dir, Supported[platform][arch])
      && (|argv| > 2 ==> argv == argv[..2] + l.child.value.args)
      && l.child.value.env[InstallSourceKey] == "npm"
      && (forall k :: k in env && k != InstallSourceKey ==> l.child.value.env[k] == env[k])
      && (childCode.Some? ==> l.exitCode == childCode.value)
      && (childCode.None? ==> l.exitCode == 0)
  {
  }

  /** Running the launcher twice through npm marks the environment once: the marker is idempotent. */
  lemma ChildEnvIdempotent(env: map<string, string>)
    ensures ChildEnv(ChildEnv(env)) == ChildEnv(env)
  {
  }
}
