/** The container runtime as the tool sees it through the `docker` command-line
    client. The model replaces the real runtime by a deterministic stand-in: an
    explicit state (containers, volumes, networks and the host's files), a fixed
    set of commands that the runtime refuses, and a function from state and
    command to reply and new state. A `Host` object holds that state and the log
    of everything the tool asked of it, in order. */
module Runtime {
  import opened Text

  /** Docker's container states. */
  datatype Status = Created | Restarting | Running | Removing | Paused | Exited | Dead

  /** The spelling `docker ps --filter status=...` uses. */
  function StatusName(s: Status): string {
    match s
    case Created => "created"
    case Restarting => "restarting"
    case Running => "running"
    case Removing => "removing"
    case Paused => "paused"
    case Exited => "exited"
    case Dead => "dead"
  }

  /** The states that `docker ps` without `-a` lists. */
  predicate IsUp(s: Status) {
    s == Running || s == Paused || s == Restarting
  }

  datatype Container = Container(id: string, name: string, image: string, status: Status)

  /** Everything the tool's commands can observe or change. */
  datatype World = World(
    containers: seq<Container>,  // in the order `docker ps` lists them
    volumes: set<string>,
    networks: set<string>,
    files: set<string>)          // paths on the host's file system

  /** What the runtime guarantees of its containers: identifiers, names and image
      references are single non-blank words, identifiers are unique, and no name
      is also an identifier. */
  predicate WellFormed(w: World) {
    && (forall c :: c in w.containers ==> IsToken(c.id) && IsToken(c.name) && IsToken(c.image))
    && (forall c, d :: c in w.containers && d in w.containers && c.id == d.id ==> c == d)
    && (forall c, d :: c in w.containers && d in w.containers ==> c.name != d.id)
  }

  /** The `--format` templates the tool passes to `docker ps`. */
  const NamesFormat := "{{.Names}}"
  const NamesImagesFormat := "{{.Names}} {{.Image}}"
  const IdsFormat := "{{.ID}}"

  /** One invocation of the `docker` client. */
  datatype Cmd =
    | Ps(all: bool, filter: string, format: string)
    | Pull(image: string)
    | Run(args: seq<string>)
    | Rm(target: string)
    | VolumeInspect(volume: string)
    | VolumeCreate(volume: string)
    | VolumeRm(volume: string)
    | NetworkInspect(network: string)
    | NetworkCreate(network: string)
    | ImagePrune

  /** The argument vector handed to `docker`. */
  function Argv(c: Cmd): seq<string> {
    match c
    case Ps(all, filter, format) =>
      ["ps"] + (if all then ["-a"] else []) + (if filter == "" then [] else ["--filter", filter])
      + ["--format", format]
    case Pull(image) => ["pull", image]
    case Run(args) => args
    case Rm(target) => ["rm", "-f", target]
    case VolumeInspect(v) => ["volume", "inspect", v]
    case VolumeCreate(v) => ["volume", "create", v]
    case VolumeRm(v) => ["volume", "rm", "-f", v]
    case NetworkInspect(n) => ["network", "inspect", n]
    case NetworkCreate(n) => ["network", "create", n]
    case ImagePrune => ["image", "prune", "-f"]
  }

  /** Something the tool does to the outside world: a `docker` command, the removal
      of a file, or a call into a routine of the tool that this model does not include. */
  datatype Action = Docker(cmd: Cmd) | RemoveFile(path: string) | Call(routine: string, arg: string)

  /** Whether the command succeeded, and what it printed on standard output. */
  datatype Reply = Reply(ok: bool, output: string)

  /** What stays fixed for a run of the tool: the operating system (Go's
      runtime.GOOS), the TEMP environment variable, and the commands the runtime refuses. */
  datatype Machine = Machine(goos: string, tempVar: string, refuses: set<Cmd>)

  /** How a Go function of the tool ends: it returns a value, or the process exits. */
  datatype Ended<R> = Returned(value: R) | Halted(code: int)

  predicate KnownFilter(filter: string) {
    filter == "" || "name=" <= filter || "ancestor=" <= filter || "status=" <= filter
  }

  /** Docker's filters: `name=` matches a part of the name, `ancestor=` the image,
      `status=` the state. */
  predicate Passes(c: Container, filter: string) {
    if filter == "" then true
    else if "name=" <= filter then Contains(c.name, filter[5..])
    else if "ancestor=" <= filter then c.image == filter[9..]
    else if "status=" <= filter then StatusName(c.status) == filter[7..]
    else false
  }

  /** The containers `docker ps` lists, in order. */
  function Listed(cs: seq<Container>, all: bool, filter: string): (r: seq<Container>)
    ensures forall c :: c in r <==> c in cs && (all || IsUp(c.status)) && Passes(c, filter)
  {
    if cs == [] then []
    else
      (if (all || IsUp(cs[0].status)) && Passes(cs[0], filter) then [cs[0]] else [])
      + Listed(cs[1..], all, filter)
  }

  function Row(c: Container, format: string): string {
    if format == NamesFormat then c.name
    else if format == IdsFormat then c.id
    else if format == NamesImagesFormat then c.name + " " + c.image
    else ""
  }

  function Rows(cs: seq<Container>, format: string): (r: seq<string>)
    ensures |r| == |cs|
    ensures forall i :: 0 <= i < |cs| ==> r[i] == Row(cs[i], format)
  {
    if cs == [] then [] else [Row(cs[0], format)] + Rows(cs[1..], format)
  }

  /** The runtime's reply to an action in a given state. */
  function Answer(m: Machine, w: World, a: Action): Reply {
    match a
    case Docker(cmd) =>
      if cmd in m.refuses then Reply(false, "")
      else (
        match cmd
        case Ps(all, filter, format) =>
          if KnownFilter(filter) then Reply(true, Lines(Rows(Listed(w.containers, all, filter), format)))
          else Reply(false, "")
        case VolumeInspect(v) => Reply(v in w.volumes, "")
        case NetworkInspect(n) => Reply(n in w.networks, "")
        case NetworkCreate(n) => Reply(n !in w.networks, "")
        case _ => Reply(true, ""))
    case RemoveFile(p) => Reply(p in w.files, "")
    case Call(_, _) => Reply(true, "")
  }

  /** The containers left after `docker rm -f target`: those whose identifier and name differ from it. */
  function Without(cs: seq<Container>, target: string): (r: seq<Container>)
    ensures forall c :: c in r <==> c in cs && c.id != target && c.name != target
  {
    if cs == [] then []
    else
      (if cs[0].id != target && cs[0].name != target then [cs[0]] else [])
      + Without(cs[1..], target)
  }

  /** The state after an action. A refused command changes nothing. */
  function Apply(m: Machine, w: World, a: Action): World {
    match a
    case Docker(cmd) =>
      if cmd in m.refuses then w
      else (
        match cmd
        case Rm(target) => w.(containers := Without(w.containers, target))
        case VolumeCreate(v) => w.(volumes := w.volumes + {v})
        case VolumeRm(v) => w.(volumes := w.volumes - {v})
        case NetworkCreate(n) => if n in w.networks then w else w.(networks := w.networks + {n})
        case _ => w)
    case RemoveFile(p) => w.(files := w.files - {p})
    case Call(_, _) => w
  }

  /** The state a sequence of steps ends in, the actions it issued (in order) and
      what it produced. */
  datatype Trace<T> = Trace(world: World, issued: seq<Action>, result: T)

  function Issue(m: Machine, w: World, a: Action): Trace<Reply> {
    Trace(Apply(m, w, a), [a], Answer(m, w, a))
  }

  /** Appending to a log step by step is appending the whole trace. */
  lemma AppendAssoc(a: seq<Action>, b: seq<Action>, c: seq<Action>)
    ensures a + (b + c) == a + b + c
  {
  }

  /** No action adds a container; removal keeps a subsequence. */
  lemma ApplyKeepsWellFormed(m: Machine, w: World, a: Action)
    requires WellFormed(w)
    ensures WellFormed(Apply(m, w, a))
    ensures forall c :: c in Apply(m, w, a).containers ==> c in w.containers
  {
  }

  /** The tool's view of the machine it runs on. */
  class Host {
    const machine: Machine
    var containers: seq<Container>
    var volumes: set<string>
    var networks: set<string>
    var files: set<string>
    var log: seq<Action>

    function State(): World
      reads this
    {
      World(containers, volumes, networks, files)
    }

    constructor (m: Machine, w: World)
      ensures machine == m && State() == w && log == []
    {
      machine := m;
      containers, volumes, networks, files := w.containers, w.volumes, w.networks, w.files;
      log := [];
    }

    /** Performs one action: the reply and the new state are the runtime's, and the
        action is appended to the log. */
    method Exec(a: Action) returns (r: Reply)
      modifies this
      ensures State() == Apply(machine, old(State()), a)
      ensures log == old(log) + [a]
      ensures r == Answer(machine, old(State()), a)
    {
      r := Answer(machine, State(), a);
      var w := Apply(machine, State(), a);
      containers, volumes, networks, files := w.containers, w.volumes, w.networks, w.files;
      log := log + [a];
    }
  }
}
