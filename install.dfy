/** src/base/StartContainer.go: installing one database kind. The kind's image,
    default port and data directory come from fixed tables; the user's answers
    decide the optional fragments of the `docker run` vector. */
module Install {
  import opened Text
  import opened Runtime
  import opened DockerContainer
  import opened DockerNetwork
  import opened Input

  // ---------------------------------------------------------------------------
  // The catalog. A Go map lookup of a missing key gives "".

  /** The six kinds the tables know. */
  const Kinds: set<string> := {"mongodb", "redis", "mysql", "postgresql", "mariadb", "axiodb"}

  /** The kinds that ask for credentials. */
  const SqlKinds: set<string> := {"mysql", "postgresql", "mariadb"}

  function ImageOf(db: string): string {
    match db
    case "mongodb" => "mongo"
    case "redis" => "redis"
    case "mysql" => "mysql"
    case "postgresql" => "postgres"
    case "mariadb" => "mariadb"
    case "axiodb" => "theankansaha/axiodb"
    case _ => ""
  }

  function DefaultPort(db: string): string {
    match db
    case "mongodb" => "27017"
    case "redis" => "6379"
    case "mysql" => "3306"
    case "postgresql" => "5432"
    case "mariadb" => "3306"
    case "axiodb" => "27018"
    case _ => ""
  }

  function DataDir(db: string): string {
    match db
    case "mongodb" => "/data/db"
    case "redis" => "/data"
    case "mysql" => "/var/lib/mysql"
    case "postgresql" => "/var/lib/postgresql/data"
    case "mariadb" => "/var/lib/mysql"
    case "axiodb" => "/app/AxioDB"
    case _ => ""
  }

  function ContainerName(db: string): string { db + "-container" }

  function VolumeName(db: string): string { db + "-data" }

  /** The three tables are defined on exactly the same six kinds. */
  lemma CatalogDomain(db: string)
    ensures db in Kinds <==> ImageOf(db) != ""
    ensures db in Kinds <==> DefaultPort(db) != ""
    ensures db in Kinds <==> DataDir(db) != ""
  {
  }

  lemma PrintableNoSpace(s: string)
    requires forall i :: 0 <= i < |s| ==> '!' <= s[i] <= '~'
    ensures NoSpace(s)
  {
  }

  lemma CatalogWords(db: string)
    requires db in Kinds
    ensures IsToken(ImageOf(db)) && IsToken(DefaultPort(db)) && IsToken(DataDir(db))
  {
    PrintableNoSpace(ImageOf(db));
    PrintableNoSpace(DefaultPort(db));
    PrintableNoSpace(DataDir(db));
  }

  /** No two kinds share an image, so the ancestor check of one kind never sees another's container. */
  lemma ImagesDistinct(a: string, b: string)
    requires a in Kinds && b in Kinds && ImageOf(a) == ImageOf(b)
    ensures a == b
  {
  }

  /** The derived names end in the fixed suffixes and determine the kind. */
  lemma DerivedNames(a: string, b: string)
    ensures ContainerName(a)[|a|..] == "-container" && VolumeName(a)[|a|..] == "-data"
    ensures ContainerName(a) == ContainerName(b) ==> a == b
    ensures VolumeName(a) == VolumeName(b) ==> a == b
  {
    if ContainerName(a) == ContainerName(b) {
      assert |a| == |b|;
      assert a == ContainerName(a)[..|a|];
    }
    if VolumeName(a) == VolumeName(b) {
      assert |a| == |b|;
      assert a == VolumeName(a)[..|a|];
    }
  }

  // ---------------------------------------------------------------------------
  // The answers that shape the run vector.

  /** Port mapping (and the host side of it), auto-restart, persistence. */
  datatype Settings = Settings(mapPort: bool, hostPort: string, restart: bool, persist: bool)

  datatype Credentials = Credentials(user: string, pass: string)

  const RunPrefix: seq<string> := ["run", "-d", "--network", ManagedNetwork]

  function RunSuffix(db: string): seq<string> { ["--name", ContainerName(db), ImageOf(db)] }

  /** The variable names the images read their credentials from. */
  const MysqlPassword := "MYSQL_ROOT_PASSWORD="
  const PostgresPassword := "POSTGRES_PASSWORD="
  const PostgresUser := "POSTGRES_USER="
  const MariadbPassword := "MARIADB_ROOT_PASSWORD="

  /** The environment arguments: only the three SQL kinds have any. */
  function EnvArgs(db: string, c: Credentials): (r: seq<string>)
    ensures r != [] <==> db in SqlKinds
    ensures db == "postgresql" ==>
      r == ["-e", PostgresPassword + c.pass, "-e", PostgresUser + c.user]
  {
    match db
    case "mysql" => ["-e", MysqlPassword + c.pass]
    case "postgresql" => ["-e", PostgresPassword + c.pass, "-e", PostgresUser + c.user]
    case "mariadb" => ["-e", MariadbPassword + c.pass]
    case _ => []
  }

  function PortArgs(db: string, s: Settings): seq<string> {
    if s.mapPort then ["-p", s.hostPort + ":" + DefaultPort(db)] else []
  }

  function RestartArgs(s: Settings): seq<string> {
    if s.restart then ["--restart", "unless-stopped"] else []
  }

  function VolumeArgs(db: string, s: Settings): seq<string> {
    if s.persist then ["-v", VolumeName(db) + ":" + DataDir(db)] else []
  }

  /** The run vector with every user-entered value kept as one argument: the
      fixed prefix, the fragments in the order port, restart, volume,
      environment, and the fixed suffix. */
  function RunArgs(db: string, s: Settings, c: Credentials): (args: seq<string>)
    ensures |args| >= 7
    ensures args[..4] == ["run", "-d", "--network", ManagedNetwork]
    ensures args[|args| - 3..] == ["--name", ContainerName(db), ImageOf(db)]
    ensures s.mapPort <==> args[4] == "-p"
    ensures s.mapPort ==> args[5] == s.hostPort + ":" + DefaultPort(db)
    ensures !s.mapPort && !s.restart && !s.persist && db !in SqlKinds ==>
      args == ["run", "-d", "--network", ManagedNetwork, "--name", ContainerName(db), ImageOf(db)]
  {
    var middle := PortArgs(db, s) + RestartArgs(s) + VolumeArgs(db, s) + EnvArgs(db, c);
    var args := RunPrefix + middle + RunSuffix(db);
    ArgsFramedBy(RunPrefix, middle, RunSuffix(db));
    assert middle != [] ==> middle[0] in {"-p", "--restart", "-v", "-e"};
    args
  }

  /** The fixed prefix and suffix of a run vector stay where they are whatever the middle holds. */
  lemma ArgsFramedBy(prefix: seq<string>, middle: seq<string>, suffix: seq<string>)
    requires |prefix| == 4 && |suffix| == 3
    ensures var args := prefix + middle + suffix;
      && |args| == 7 + |middle|
      && args[..4] == prefix
      && args[|args| - 3..] == suffix
      && args[4] == (if middle == [] then suffix[0] else middle[0])
  {
    var args := prefix + middle + suffix;
    assert args == prefix + (middle + suffix);
    assert args[..4] == prefix;
    assert args[|args| - 3..] == suffix;
  }

  // ---------------------------------------------------------------------------
  // The run vector as the source assembles it: each fragment is one formatted
  // string, split with strings.Fields.

  // Each fragment is the source's format string, its literal text cut at the
  // blanks: "-p %s:%s" is "-p" + " " + (hostPort + ":" + port), and so on.

  function PortFragment(db: string, s: Settings): string {
    if s.mapPort then "-p" + " " + (s.hostPort + ":" + DefaultPort(db)) else ""
  }

  function RestartFragment(s: Settings): string {
    if s.restart then "--restart" + " " + "unless-stopped" else ""
  }

  function VolumeFragment(db: string, s: Settings): string {
    if s.persist then "-v" + " " + (VolumeName(db) + ":" + DataDir(db)) else ""
  }

  function EnvFragment(db: string, c: Credentials): string {
    match db
    case "mysql" => "-e" + " " + (MysqlPassword + c.pass)
    case "postgresql" => "-e" + " " + (PostgresPassword + c.pass) + " " + "-e" + " " + (PostgresUser + c.user)
    case "mariadb" => "-e" + " " + (MariadbPassword + c.pass)
    case _ => ""
  }

  /** `if f != "" { args = append(args, strings.Fields(f)...) }` */
  function FragmentArgs(f: string): (r: seq<string>)
    ensures f == "" ==> r == []
  {
    if f != "" then Fields(f) else []
  }

  /** StartContainer.go's assembly of the run vector, as written. */
  function RunArgsAsWritten(db: string, s: Settings, c: Credentials): (args: seq<string>)
    ensures |args| >= 7
    ensures args[..4] == ["run", "-d", "--network", ManagedNetwork]
    ensures args[|args| - 3..] == ["--name", ContainerName(db), ImageOf(db)]
  {
    var middle := FragmentArgs(PortFragment(db, s)) + FragmentArgs(RestartFragment(s))
      + FragmentArgs(VolumeFragment(db, s)) + FragmentArgs(EnvFragment(db, c));
    var args := RunPrefix + middle + RunSuffix(db);
    ArgsFramedBy(RunPrefix, middle, RunSuffix(db));
    args
  }

  lemma NoSpaceConcat(a: string, b: string)
    requires NoSpace(a) && NoSpace(b)
    ensures NoSpace(a + b)
  {
    forall i | 0 <= i < |a + b|
      ensures !IsSpace((a + b)[i])
    {
      if i >= |a| {
        assert (a + b)[i] == b[i - |a|];
      }
    }
  }

  /** Two words separated by a blank split back into the two words. */
  lemma FieldsOfPair(a: string, b: string)
    requires IsToken(a) && IsToken(b)
    ensures Fields(a + " " + b) == [a, b]
  {
    FieldsAfterToken(a, ' ', b);
    FieldsOfToken(b);
  }

  lemma BlankRegroup(x: string, y: string, z: string)
    ensures x + " " + y + " " + z == x + " " + (y + " " + z)
  {
  }

  lemma FieldsOfFour(a: string, b: string, c: string, d: string)
    requires IsToken(a) && IsToken(b) && IsToken(c) && IsToken(d)
    ensures Fields(a + " " + b + " " + c + " " + d) == [a, b, c, d]
  {
    var cd := c + " " + d;
    var bcd := b + " " + cd;
    BlankRegroup(a + " " + b, c, d);
    BlankRegroup(a, b, cd);
    assert a + " " + b + " " + c + " " + d == a + [' '] + bcd;
    FieldsAfterToken(a, ' ', bcd);
    FieldsAfterToken(b, ' ', cd);
    FieldsOfPair(c, d);
  }

  /** A fixed word-like tag followed by a value without white space is one word. */
  lemma LabelledToken(tag: string, value: string)
    requires IsToken(tag) && NoSpace(value)
    ensures IsToken(tag + value)
  {
    NoSpaceConcat(tag, value);
  }

  lemma FlagWords()
    ensures IsToken("-p") && IsToken("-v") && IsToken("-e") && IsToken(":")
    ensures IsToken("--restart") && IsToken("unless-stopped") && IsToken("-data")
  {
    PrintableNoSpace("-p");
    PrintableNoSpace("-v");
    PrintableNoSpace("-e");
    PrintableNoSpace(":");
    PrintableNoSpace("--restart");
    PrintableNoSpace("unless-stopped");
    PrintableNoSpace("-data");
  }

  lemma TagWords()
    ensures IsToken(MysqlPassword) && IsToken(PostgresPassword) && IsToken(PostgresUser) && IsToken(MariadbPassword)
  {
    PrintableNoSpace(MysqlPassword);
    PrintableNoSpace(PostgresPassword);
    PrintableNoSpace(PostgresUser);
    PrintableNoSpace(MariadbPassword);
  }

  lemma PortFragmentAgrees(db: string, s: Settings)
    requires NoSpace(s.hostPort) && (db in Kinds || DefaultPort(db) == "")
    ensures FragmentArgs(PortFragment(db, s)) == PortArgs(db, s)
  {
    if s.mapPort {
      if db in Kinds {
        CatalogWords(db);
      }
      FlagWords();
      LabelledToken(s.hostPort + ":", DefaultPort(db)) by {
        NoSpaceConcat(s.hostPort, ":");
      }
      FieldsOfPair("-p", s.hostPort + ":" + DefaultPort(db));
    }
  }

  lemma RestartFragmentAgrees(s: Settings)
    ensures FragmentArgs(RestartFragment(s)) == RestartArgs(s)
  {
    if s.restart {
      FlagWords();
      FieldsOfPair("--restart", "unless-stopped");
    }
  }

  lemma VolumeFragmentAgrees(db: string, s: Settings)
    requires NoSpace(db) && (db in Kinds || DataDir(db) == "")
    ensures FragmentArgs(VolumeFragment(db, s)) == VolumeArgs(db, s)
  {
    if s.persist {
      if db in Kinds {
        CatalogWords(db);
      }
      FlagWords();
      NoSpaceConcat(db, "-data");
      LabelledToken(VolumeName(db), ":");
      LabelledToken(VolumeName(db) + ":", DataDir(db));
      FieldsOfPair("-v", VolumeName(db) + ":" + DataDir(db));
    }
  }

  lemma EnvFragmentAgrees(db: string, c: Credentials)
    requires NoSpace(c.user) && NoSpace(c.pass)
    ensures FragmentArgs(EnvFragment(db, c)) == EnvArgs(db, c)
  {
    FlagWords();
    TagWords();
    if db == "mysql" {
      LabelledToken(MysqlPassword, c.pass);
      FieldsOfPair("-e", MysqlPassword + c.pass);
    } else if db == "postgresql" {
      LabelledToken(PostgresPassword, c.pass);
      LabelledToken(PostgresUser, c.user);
      FieldsOfFour("-e", PostgresPassword + c.pass, "-e", PostgresUser + c.user);
    } else if db == "mariadb" {
      LabelledToken(MariadbPassword, c.pass);
      FieldsOfPair("-e", MariadbPassword + c.pass);
    }
  }

  /** When the host port, the user name and the password hold no white space (and
      the kind is one word), splitting the formatted fragments gives exactly the
      discrete arguments. */
  lemma AsWrittenAgrees(db: string, s: Settings, c: Credentials)
    requires NoSpace(db) && NoSpace(s.hostPort) && NoSpace(c.user) && NoSpace(c.pass)
    ensures RunArgsAsWritten(db, s, c) == RunArgs(db, s, c)
  {
    CatalogDomain(db);
    PortFragmentAgrees(db, s);
    RestartFragmentAgrees(s);
    VolumeFragmentAgrees(db, s);
    EnvFragmentAgrees(db, c);
  }

  /** With no option chosen, the vector is the prefix, the environment and the suffix. */
  lemma RunArgsWithOnlyEnv(db: string, c: Credentials)
    ensures var s := Settings(false, DefaultPort(db), false, false);
      && RunArgs(db, s, c) == RunPrefix + EnvArgs(db, c) + RunSuffix(db)
      && RunArgsAsWritten(db, s, c) == RunPrefix + FragmentArgs(EnvFragment(db, c)) + RunSuffix(db)
  {
  }

  /** The source's assembly breaks a password with a blank in it into separate
      arguments: for mysql with password "a b", the word b becomes an argument of
      its own, which `docker run` takes as the image to run, while the discrete
      assembly keeps the password whole. */
  lemma MysqlEnvSplits(user: string, a: string, b: string)
    requires IsToken(a) && IsToken(b)
    ensures FragmentArgs(EnvFragment("mysql", Credentials(user, a + " " + b))) == ["-e", MysqlPassword + a, b]
  {
    FlagWords();
    TagWords();
    LabelledToken(MysqlPassword, a);
    var rest := (MysqlPassword + a) + " " + b;
    assert "-e" + " " + (MysqlPassword + (a + " " + b)) == "-e" + [' '] + rest by {
      ConcatAssoc(MysqlPassword, a, " " + b);
      ConcatAssoc(MysqlPassword + a, " ", b);
    }
    FieldsAfterToken("-e", ' ', rest);
    FieldsOfPair(MysqlPassword + a, b);
  }

  lemma AsWrittenSplitsPassword(user: string, a: string, b: string)
    requires IsToken(a) && IsToken(b)
    ensures var s := Settings(false, "3306", false, false);
      var c := Credentials(user, a + " " + b);
      && RunArgsAsWritten("mysql", s, c) == RunPrefix + ["-e", MysqlPassword + a, b] + RunSuffix("mysql")
      && RunArgs("mysql", s, c) == RunPrefix + ["-e", MysqlPassword + (a + " " + b)] + RunSuffix("mysql")
      && RunArgsAsWritten("mysql", s, c) != RunArgs("mysql", s, c)
  {
    var c := Credentials(user, a + " " + b);
    RunArgsWithOnlyEnv("mysql", c);
    MysqlEnvSplits(user, a, b);
    assert |RunArgsAsWritten("mysql", Settings(false, "3306", false, false), c)| == 10;
    assert |RunArgs("mysql", Settings(false, "3306", false, false), c)| == 9;
  }

  /** The concrete case: the password "my pass". */
  lemma AsWrittenSplitsMyPass()
    ensures RunArgsAsWritten("mysql", Settings(false, "3306", false, false), Credentials("root", "my pass"))
      == RunPrefix + ["-e", "MYSQL_ROOT_PASSWORD=my", "pass"] + RunSuffix("mysql")
  {
    PrintableNoSpace("my");
    PrintableNoSpace("pass");
    assert "my pass" == "my" + " " + "pass";
    AsWrittenSplitsPassword("root", "my", "pass");
    assert MysqlPassword + "my" == "MYSQL_ROOT_PASSWORD=my";
  }

  /** Such a password reaches StartContainer: the user types it at the prompt. */
  lemma SpacedPasswordIsAccepted()
    ensures AskForInput("my pass\n", "password") == "my pass"
  {
    var line := "my pass\n";
    assert TrimLeft(line) == line;
    assert line[..|line| - 1] == "my pass";
  }
  // ---------------------------------------------------------------------------
  // The install flow.

  /** The user's answers, in the order StartContainer asks: map the port?, a
      custom host port?, the host-port line, auto-restart?, persist data?, the
      item picked when the volume exists ("" when that prompt fails), the
      user-name line and the password line. */
  datatype Answers = Answers(
    mapPort: Pick, customPort: Pick, hostPortLine: string, restart: Pick, persist: Pick,
    volumeChoice: string, userLine: string, passLine: string)

  /** How StartContainer returns. */
  datatype InstallOutcome = AlreadyRunning | SetupExited | RunFailed | Started

  /** The Yes/No prompts: each may end the process (Exit, or an interrupted prompt). */
  function AskSettings(db: string, ans: Answers): (r: Ended<Settings>)
    ensures r.Returned? ==>
      && (r.value.mapPort <==> ans.mapPort == Index(0))
      && (r.value.restart <==> ans.restart == Index(0))
      && (r.value.persist <==> ans.persist == Index(0))
    ensures r.Returned? && r.value.mapPort ==>
      r.value.hostPort == if ans.customPort == Index(0) then AskForInput(ans.hostPortLine, DefaultPort(db))
                          else DefaultPort(db)
    ensures r.Halted? ==> r.code == 0 || r.code == 1
  {
    match AskYesNo(ans.mapPort)
    case Halted(code) => Halted(code)
    case Returned(mapPort) =>
      match (if mapPort then AskYesNo(ans.customPort) else Returned(false))
      case Halted(code) => Halted(code)
      case Returned(custom) =>
        var hostPort := if custom then AskForInput(ans.hostPortLine, DefaultPort(db)) else DefaultPort(db);
        match AskYesNo(ans.restart)
        case Halted(code) => Halted(code)
        case Returned(restart) =>
          match AskYesNo(ans.persist)
          case Halted(code) => Halted(code)
          case Returned(persist) => Returned(Settings(mapPort, hostPort, restart, persist))
  }

  /** The credentials of the SQL kinds: a blank user becomes root, a blank password
      ends the process with status 1. Other kinds are not asked. */
  function AskCredentials(db: string, ans: Answers): (r: Ended<Credentials>)
    ensures db !in SqlKinds ==> r == Returned(Credentials("", ""))
    ensures r.Returned? && db in SqlKinds ==>
      && (AllSpace(ans.userLine) ==> r.value.user == "root")
      && (AllSpace(ans.passLine) ==> r.value.pass == "password")
      && (!AllSpace(ans.passLine) ==> Framed(r.value.pass))
  {
    if db in SqlKinds then
      var user := AskForInput(ans.userLine, "root");
      var pass := AskForInput(ans.passLine, "password");
      var user' := if user == "" then "root" else user;
      if pass == "" then Halted(1) else Returned(Credentials(user', pass))
    else Returned(Credentials("", ""))
  }

  /** The credentials the flow runs with: the two answers resolved against their defaults. */
  function CredentialsOf(db: string, ans: Answers): Credentials {
    Credentials(if db in SqlKinds then AskForInput(ans.userLine, "root") else "",
                if db in SqlKinds then AskForInput(ans.passLine, "password") else "")
  }

  /** With the defaults "root" and "password" the blank-user and blank-password
      branches never fire: the credential step always returns, with a non-empty
      user and password. */
  lemma CredentialsAlwaysReturn(db: string, ans: Answers)
    ensures AskCredentials(db, ans) == Returned(CredentialsOf(db, ans))
    ensures db in SqlKinds ==> CredentialsOf(db, ans).user != "" && CredentialsOf(db, ans).pass != ""
  {
    CredentialsNeverBlank(ans.userLine, ans.passLine);
  }

  /** The volume step when the user asked to persist: an existing volume is kept
      ("Use existing" or anything else), recreated ("Create fresh"), or the setup
      stops ("Exit", false); a missing volume is created. */
  function VolumePhaseTrace(m: Machine, w: World, db: string, choice: string): Trace<bool> {
    var v := VolumeName(db);
    var e := VolumeExistsTrace(m, w, v);
    if e.result then
      if choice == "Create fresh" then
        var r := RemoveVolumeTrace(m, e.world, v);
        var c := CreateVolumeTrace(m, r.world, v);
        Trace(c.world, e.issued + r.issued + c.issued, true)
      else if choice == "Exit" then Trace(e.world, e.issued, false)
      else Trace(e.world, e.issued, true)
    else
      var c := CreateVolumeTrace(m, e.world, v);
      Trace(c.world, e.issued + c.issued, true)
  }

  method VolumePhase(h: Host, db: string, choice: string) returns (proceed: bool)
    modifies h
    ensures var t := VolumePhaseTrace(h.machine, old(h.State()), db, choice);
      h.State() == t.world && h.log == old(h.log) + t.issued && proceed == t.result
  {
    var volName := VolumeName(db);
    ghost var w0 := h.State();
    var exists_ := VolumeExists(h, volName);
    ghost var e := VolumeExistsTrace(h.machine, w0, volName);
    if exists_ {
      if choice == "Create fresh" {
        ghost var w1 := h.State();
        var _ := RemoveVolume(h, volName);
        ghost var r := RemoveVolumeTrace(h.machine, w1, volName);
        ghost var w2 := h.State();
        var _ := CreateVolume(h, volName);
        ghost var c := CreateVolumeTrace(h.machine, w2, volName);
        AppendAssoc(old(h.log), e.issued, r.issued);
        AppendAssoc(old(h.log), e.issued + r.issued, c.issued);
      }
      if choice == "Exit" {
        return false;
      }
    } else {
      ghost var w1 := h.State();
      var _ := CreateVolume(h, volName);
      AppendAssoc(old(h.log), e.issued, CreateVolumeTrace(h.machine, w1, volName).issued);
    }
    return true;
  }

  const AfterInstall := "AfterContainerToolInstaller"

  /** The `docker run` and, when it succeeds, the tool installer. */
  function LaunchTrace(m: Machine, w: World, db: string, s: Settings, c: Credentials): Trace<InstallOutcome> {
    var run := Issue(m, w, Docker(Run(RunArgs(db, s, c))));
    if run.result.ok then Trace(run.world, run.issued + [Call(AfterInstall, db)], Started)
    else Trace(run.world, run.issued, RunFailed)
  }

  /** Everything after the pull: the prompts, the volume step, the credentials and the launch. */
  function SetupTrace(m: Machine, w: World, db: string, ans: Answers): Trace<Ended<InstallOutcome>> {
    match AskSettings(db, ans)
    case Halted(code) => Trace(w, [], Halted(code))
    case Returned(s) =>
      var vol := if s.persist then VolumePhaseTrace(m, w, db, ans.volumeChoice) else Trace(w, [], true);
      if !vol.result then Trace(vol.world, vol.issued, Returned(SetupExited))
      else
        match AskCredentials(db, ans)
        case Halted(code) => Trace(vol.world, vol.issued, Halted(code))
        case Returned(c) =>
          var l := LaunchTrace(m, vol.world, db, s, c);
          Trace(l.world, vol.issued + l.issued, Returned(l.result))
  }

  /** StartContainer: the running check by image, the pull (its failure ignored),
      then the setup. */
  function StartContainerTrace(m: Machine, w: World, db: string, ans: Answers): Trace<Ended<InstallOutcome>> {
    var image := ImageOf(db);
    var check := IsContainerRunningTrace(m, w, image, false);
    if check.result then Trace(check.world, check.issued, Returned(AlreadyRunning))
    else
      var pull := Issue(m, check.world, Docker(Pull(image)));
      var setup := SetupTrace(m, pull.world, db, ans);
      Trace(setup.world, check.issued + pull.issued + setup.issued, setup.result)
  }

  method Launch(h: Host, db: string, s: Settings, c: Credentials) returns (outcome: InstallOutcome)
    modifies h
    ensures var t := LaunchTrace(h.machine, old(h.State()), db, s, c);
      h.State() == t.world && h.log == old(h.log) + t.issued && outcome == t.result
  {
    var args := RunArgs(db, s, c);
    var r := h.Exec(Docker(Run(args)));
    if r.ok {
      var _ := h.Exec(Call(AfterInstall, db));
      AppendAssoc(old(h.log), [Docker(Run(args))], [Call(AfterInstall, db)]);
      return Started;
    }
    return RunFailed;
  }

  method Setup(h: Host, db: string, ans: Answers) returns (outcome: Ended<InstallOutcome>)
    modifies h
    ensures var t := SetupTrace(h.machine, old(h.State()), db, ans);
      h.State() == t.world && h.log == old(h.log) + t.issued && outcome == t.result
  {
    var settings := AskSettings(db, ans);
    if settings.Halted? {
      return Halted(settings.code);
    }
    var s := settings.value;
    ghost var vol := if s.persist then VolumePhaseTrace(h.machine, h.State(), db, ans.volumeChoice)
                     else Trace(h.State(), [], true);
    if s.persist {
      var proceed := VolumePhase(h, db, ans.volumeChoice);
      if !proceed {
        return Returned(SetupExited);
      }
    }
    assert h.State() == vol.world && h.log == old(h.log) + vol.issued;
    var creds := AskCredentials(db, ans);
    if creds.Halted? {
      return Halted(creds.code);
    }
    var launched := Launch(h, db, s, creds.value);
    ghost var l := LaunchTrace(h.machine, vol.world, db, s, creds.value);
    assert SetupTrace(h.machine, old(h.State()), db, ans) == Trace(l.world, vol.issued + l.issued, Returned(l.result));
    AppendAssoc(old(h.log), vol.issued, l.issued);
    return Returned(launched);
  }

  method StartContainer(h: Host, db: string, ans: Answers) returns (outcome: Ended<InstallOutcome>)
    modifies h
    ensures var t := StartContainerTrace(h.machine, old(h.State()), db, ans);
      h.State() == t.world && h.log == old(h.log) + t.issued && outcome == t.result
  {
    var image := ImageOf(db);
    ghost var check := IsContainerRunningTrace(h.machine, h.State(), image, false);
    var running := IsContainerRunning(h, image, false);
    if running {
      return Returned(AlreadyRunning);
    }
    var _ := h.Exec(Docker(Pull(image)));
    ghost var pull := Issue(h.machine, check.world, Docker(Pull(image)));
    ghost var w2 := h.State();
    outcome := Setup(h, db, ans);
    ghost var setup := SetupTrace(h.machine, w2, db, ans);
    assert StartContainerTrace(h.machine, old(h.State()), db, ans)
      == Trace(setup.world, check.issued + pull.issued + setup.issued, setup.result);
    AppendAssoc(old(h.log), check.issued, pull.issued);
    AppendAssoc(old(h.log), check.issued + pull.issued, setup.issued);
  }

  // ---------------------------------------------------------------------------
  // Properties of the install flow.

  /** The number of `docker run` commands among the actions. */
  function Runs(actions: seq<Action>): nat {
    if actions == [] then 0
    else (if IsRun(actions[0]) then 1 else 0) + Runs(actions[1..])
  }

  lemma {:induction false} RunsAppend(a: seq<Action>, b: seq<Action>)
    ensures Runs(a + b) == Runs(a) + Runs(b)
  {
    if a == [] {
      assert a + b == b;
    } else {
      assert (a + b)[0] == a[0];
      assert (a + b)[1..] == a[1..] + b;
      RunsAppend(a[1..], b);
    }
  }

  predicate IsRun(a: Action) {
    a.Docker? && a.cmd.Run?
  }

  lemma {:induction false} RunsNone(actions: seq<Action>)
    requires forall i :: 0 <= i < |actions| ==> !IsRun(actions[i])
    ensures Runs(actions) == 0
  {
    if actions != [] {
      RunsNone(actions[1..]);
    }
  }

  /** The query and the pull that open the flow when nothing of the kind runs. */
  function Opening(db: string): seq<Action> {
    [Docker(RunningQuery(ImageOf(db), false)), Docker(Pull(ImageOf(db)))]
  }

  /** A running container of the kind's image ends the flow after the one query. */
  lemma StartShortCircuit(m: Machine, w: World, db: string, ans: Answers)
    requires IsContainerRunningTrace(m, w, ImageOf(db), false).result
    ensures var t := StartContainerTrace(m, w, db, ans);
      && t.issued == [Docker(Ps(false, "ancestor=" + ImageOf(db), NamesFormat))]
      && t.world == w && t.result == Returned(AlreadyRunning)
  {
  }

  /** ... and such a container exists exactly when the query lists one. */
  lemma RunningImageShortCircuits(m: Machine, w: World, db: string, ans: Answers, c: Container)
    requires WellFormed(w) && RunningQuery(ImageOf(db), false) !in m.refuses
    requires c in w.containers && IsUp(c.status) && c.image == ImageOf(db)
    ensures StartContainerTrace(m, w, db, ans).result == Returned(AlreadyRunning)
    ensures Runs(StartContainerTrace(m, w, db, ans).issued) == 0
  {
    IsContainerRunningExact(m, w, ImageOf(db), false);
    StartShortCircuit(m, w, db, ans);
  }

  /** Otherwise the query and the pull come first, whatever the pull's outcome, and
      the setup continues on the unchanged state. */
  lemma StartUnfolds(m: Machine, w: World, db: string, ans: Answers)
    requires !IsContainerRunningTrace(m, w, ImageOf(db), false).result
    ensures var image := ImageOf(db);
      var check := IsContainerRunningTrace(m, w, image, false);
      var pull := Issue(m, check.world, Docker(Pull(image)));
      var setup := SetupTrace(m, pull.world, db, ans);
      StartContainerTrace(m, w, db, ans) == Trace(setup.world, check.issued + pull.issued + setup.issued, setup.result)
  {
  }

  lemma PullKeepsWorld(m: Machine, w: World, db: string)
    ensures Apply(m, w, Docker(Pull(ImageOf(db)))) == w
  {
  }

  lemma OpeningActions(m: Machine, w: World, db: string)
    ensures IsContainerRunningTrace(m, w, ImageOf(db), false).issued + Issue(m, w, Docker(Pull(ImageOf(db)))).issued
      == Opening(db)
  {
  }

  lemma StartAfterPull(m: Machine, w: World, db: string, ans: Answers)
    requires !IsContainerRunningTrace(m, w, ImageOf(db), false).result
    ensures var t := StartContainerTrace(m, w, db, ans); var setup := SetupTrace(m, w, db, ans);
      t == Trace(setup.world, Opening(db) + setup.issued, setup.result)
  {
    StartUnfolds(m, w, db, ans);
    PullKeepsWorld(m, w, db);
    OpeningActions(m, w, db);
  }

  /** Whatever follows, StartContainer's first action asks whether the image already runs. */
  lemma StartChecksFirst(m: Machine, w: World, db: string, ans: Answers)
    ensures var t := StartContainerTrace(m, w, db, ans);
      t.issued != [] && t.issued[0] == Docker(RunningQuery(ImageOf(db), false))
  {
    if !IsContainerRunningTrace(m, w, ImageOf(db), false).result {
      StartAfterPull(m, w, db, ans);
      assert Opening(db)[0] == Docker(RunningQuery(ImageOf(db), false));
    }
  }

  /** A prompt that ends the process does so before any volume or run command. */
  lemma SetupHaltsOnPrompt(m: Machine, w: World, db: string, ans: Answers)
    requires AskSettings(db, ans).Halted?
    ensures SetupTrace(m, w, db, ans) == Trace(w, [], Halted(AskSettings(db, ans).code))
  {
  }

  lemma StartHaltsOnPrompt(m: Machine, w: World, db: string, ans: Answers)
    requires !IsContainerRunningTrace(m, w, ImageOf(db), false).result
    requires AskSettings(db, ans).Halted?
    ensures var t := StartContainerTrace(m, w, db, ans);
      t.issued == Opening(db) && t.result == Halted(AskSettings(db, ans).code) && t.world == w
  {
    StartAfterPull(m, w, db, ans);
    SetupHaltsOnPrompt(m, w, db, ans);
    assert Opening(db) + [] == Opening(db);
  }

  /** The three-way volume branch. */
  lemma VolumePhaseCases(m: Machine, w: World, db: string, choice: string)
    ensures var v := VolumeName(db); var t := VolumePhaseTrace(m, w, db, choice);
      var present := VolumeInspect(v) !in m.refuses && v in w.volumes;
      !present ==> t.issued == [Docker(VolumeInspect(v)), Docker(VolumeCreate(v))] && t.result
    ensures var v := VolumeName(db); var t := VolumePhaseTrace(m, w, db, choice);
      var present := VolumeInspect(v) !in m.refuses && v in w.volumes;
      present && choice == "Create fresh" ==>
        t.issued == [Docker(VolumeInspect(v)), Docker(VolumeInspect(v)), Docker(VolumeRm(v)), Docker(VolumeCreate(v))]
        && t.result
    ensures var v := VolumeName(db); var t := VolumePhaseTrace(m, w, db, choice);
      var present := VolumeInspect(v) !in m.refuses && v in w.volumes;
      present && choice != "Create fresh" ==> t.issued == [Docker(VolumeInspect(v))] && t.world == w
    ensures var v := VolumeName(db); var t := VolumePhaseTrace(m, w, db, choice);
      var present := VolumeInspect(v) !in m.refuses && v in w.volumes;
      !t.result <==> present && choice == "Exit"
    ensures var t := VolumePhaseTrace(m, w, db, choice);
      t.world.containers == w.containers && t.world.networks == w.networks && t.world.files == w.files
    ensures var t := VolumePhaseTrace(m, w, db, choice);
      Runs(t.issued) == 0
  {
    var v := VolumeName(db);
    var e := VolumeExistsTrace(m, w, v);
    var t := VolumePhaseTrace(m, w, db, choice);
    assert forall i :: 0 <= i < |t.issued| ==> !IsRun(t.issued[i]);
    RunsNone(t.issued);
    if e.result && choice == "Create fresh" {
      var r := RemoveVolumeTrace(m, e.world, v);
      var c := CreateVolumeTrace(m, r.world, v);
      assert r.world.containers == w.containers && r.world.networks == w.networks && r.world.files == w.files;
      assert e.issued + r.issued + c.issued
        == [Docker(VolumeInspect(v)), Docker(VolumeInspect(v)), Docker(VolumeRm(v)), Docker(VolumeCreate(v))];
    }
  }

  /** Choosing "Exit" for an existing volume ends the setup with no run. */
  lemma StartExitKeepsVolume(m: Machine, w: World, db: string, ans: Answers)
    requires !IsContainerRunningTrace(m, w, ImageOf(db), false).result
    requires AskSettings(db, ans).Returned? && AskSettings(db, ans).value.persist
    requires VolumeInspect(VolumeName(db)) !in m.refuses && VolumeName(db) in w.volumes
    requires ans.volumeChoice == "Exit"
    ensures var t := StartContainerTrace(m, w, db, ans);
      && t.result == Returned(SetupExited) && t.world == w && Runs(t.issued) == 0
      && t.issued == Opening(db) + [Docker(VolumeInspect(VolumeName(db)))]
  {
    StartAfterPull(m, w, db, ans);
    VolumePhaseCases(m, w, db, ans.volumeChoice);
    RunsAppend(Opening(db), [Docker(VolumeInspect(VolumeName(db)))]);
  }

  lemma SetupUnfolds(m: Machine, w: World, db: string, ans: Answers)
    requires AskSettings(db, ans).Returned?
    requires AskSettings(db, ans).value.persist ==> VolumePhaseTrace(m, w, db, ans.volumeChoice).result
    ensures var s := AskSettings(db, ans).value;
      var vol := if s.persist then VolumePhaseTrace(m, w, db, ans.volumeChoice) else Trace(w, [], true);
      var l := LaunchTrace(m, vol.world, db, s, CredentialsOf(db, ans));
      SetupTrace(m, w, db, ans) == Trace(l.world, vol.issued + l.issued, Returned(l.result))
  {
    CredentialsAlwaysReturn(db, ans);
  }

  /** One `docker run`, and the tool installer exactly when the runtime accepts it. */
  lemma LaunchCases(m: Machine, w: World, db: string, s: Settings, c: Credentials)
    ensures var run := Docker(Run(RunArgs(db, s, c))); var l := LaunchTrace(m, w, db, s, c);
      && (l.result == Started <==> Run(RunArgs(db, s, c)) !in m.refuses)
      && (l.result != Started ==> l.result == RunFailed)
      && l.issued == (if l.result == Started then [run, Call(AfterInstall, db)] else [run])
      && Runs(l.issued) == 1
  {
    var run := Docker(Run(RunArgs(db, s, c)));
    assert Runs([run]) == 1;
    RunsAppend([run], [Call(AfterInstall, db)]);
  }

  lemma SetupRunsOnce(m: Machine, w: World, db: string, ans: Answers)
    requires AskSettings(db, ans).Returned?
    requires AskSettings(db, ans).value.persist ==> VolumePhaseTrace(m, w, db, ans.volumeChoice).result
    ensures var s := AskSettings(db, ans).value;
      var run := Docker(Run(RunArgs(db, s, CredentialsOf(db, ans))));
      var vol := if s.persist then VolumePhaseTrace(m, w, db, ans.volumeChoice).issued else [];
      var t := SetupTrace(m, w, db, ans);
      && (t.result == Returned(Started) <==> Run(RunArgs(db, s, CredentialsOf(db, ans))) !in m.refuses)
      && (t.result == Returned(Started) ==> t.issued == vol + [run, Call(AfterInstall, db)])
      && (t.result != Returned(Started) ==> t.result == Returned(RunFailed) && t.issued == vol + [run])
      && Runs(t.issued) == 1
  {
    var s := AskSettings(db, ans).value;
    var c := CredentialsOf(db, ans);
    var vol := if s.persist then VolumePhaseTrace(m, w, db, ans.volumeChoice) else Trace(w, [], true);
    VolumePhaseCases(m, w, db, ans.volumeChoice);
    assert Runs(vol.issued) == 0;
    var l := LaunchTrace(m, vol.world, db, s, c);
    LaunchCases(m, vol.world, db, s, c);
    SetupUnfolds(m, w, db, ans);
    var t := SetupTrace(m, w, db, ans);
    assert t.issued == vol.issued + l.issued && t.result == Returned(l.result);
    RunsAppend(vol.issued, l.issued);
  }

  /** The flow issues the corrected vector; when no answer holds white space it is
      exactly the vector the source passes to docker. */
  lemma SetupRunsSourceVector(m: Machine, w: World, db: string, ans: Answers)
    requires AskSettings(db, ans).Returned?
    requires AskSettings(db, ans).value.persist ==> VolumePhaseTrace(m, w, db, ans.volumeChoice).result
    requires NoSpace(db) && NoSpace(AskSettings(db, ans).value.hostPort)
    requires NoSpace(CredentialsOf(db, ans).user) && NoSpace(CredentialsOf(db, ans).pass)
    ensures var s := AskSettings(db, ans).value;
      var vol := if s.persist then VolumePhaseTrace(m, w, db, ans.volumeChoice).issued else [];
      var t := SetupTrace(m, w, db, ans);
      |t.issued| > |vol| && t.issued[|vol|] == Docker(Run(RunArgsAsWritten(db, s, CredentialsOf(db, ans))))
  {
    var s := AskSettings(db, ans).value;
    var c := CredentialsOf(db, ans);
    SetupRunsOnce(m, w, db, ans);
    AsWrittenAgrees(db, s, c);
  }

  lemma StartRunsOnce(m: Machine, w: World, db: string, ans: Answers)
    requires !IsContainerRunningTrace(m, w, ImageOf(db), false).result
    requires AskSettings(db, ans).Returned?
    requires AskSettings(db, ans).value.persist ==> VolumePhaseTrace(m, w, db, ans.volumeChoice).result
    ensures var t := StartContainerTrace(m, w, db, ans); var setup := SetupTrace(m, w, db, ans);
      && Runs(t.issued) == 1
      && t.issued == Opening(db) + setup.issued
      && (t.result == Returned(Started) || t.result == Returned(RunFailed))
  {
    var setup := SetupTrace(m, w, db, ans);
    StartAfterPull(m, w, db, ans);
    SetupRunsOnce(m, w, db, ans);
    assert Runs(setup.issued) == 1;
    OpeningRunsNothing(db);
    RunsAppend(Opening(db), setup.issued);
  }

  lemma OpeningRunsNothing(db: string)
    ensures Runs(Opening(db)) == 0
  {
    RunsNone(Opening(db));
  }

  /** The container side of the port mapping is the kind's default port; the host
      side is the trimmed custom entry when one was asked for and typed, and the
      default otherwise. */
  lemma PortMappingSides(db: string, ans: Answers, c: Credentials)
    requires AskSettings(db, ans).Returned? && AskSettings(db, ans).value.mapPort
    ensures var host := if ans.customPort == Index(0) && !AllSpace(ans.hostPortLine)
                        then TrimSpace(ans.hostPortLine) else DefaultPort(db);
      RunArgs(db, AskSettings(db, ans).value, c)[4..6] == ["-p", host + ":" + DefaultPort(db)]
  {
  }

  /** Redis with every option declined: the bare vector. */
  lemma RedisAllDeclined(m: Machine, w: World, ans: Answers)
    requires ans.mapPort == Index(1) && ans.restart == Index(1) && ans.persist == Index(1)
    ensures SetupTrace(m, w, "redis", ans).issued[0]
      == Docker(Run(["run", "-d", "--network", "ContainDB-Network", "--name", "redis-container", "redis"]))
  {
    var s := Settings(false, "6379", false, false);
    assert AskSettings("redis", ans) == Returned(s);
    assert CredentialsOf("redis", ans) == Credentials("", "");
    SetupRunsOnce(m, w, "redis", ans);
    assert "redis" + "-container" == "redis-container";
    assert RunArgs("redis", s, Credentials("", "")) ==
      ["run", "-d", "--network", "ContainDB-Network", "--name", "redis-container", "redis"];
  }
}
