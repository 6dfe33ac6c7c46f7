/** src/tools/Redis_Insight.go and src/tools/PhpMyAdmin.go: the two companion
    tools that link to running database containers. Both files follow the same
    steps, so the model writes the flow once over a `Tool`: an existing
    container of the tool is replaced or the setup stops; the running containers
    of the target images are listed; the user picks one (or "Exit"); the host
    port is asked for; the image is pulled (its failure ignored) and one
    `docker run` with a literal vector is issued. */
module Tools {
  import opened Text
  import opened Runtime
  import opened DockerContainer
  import opened DockerNetwork
  import opened Input
  import opened Rollback

  datatype Tool = RedisInsight | PhpMyAdmin

  /** The tool's container name; the running check matches it as part of a name. */
  function ContainerOf(t: Tool): string {
    match t
    case RedisInsight => "redisinsight"
    case PhpMyAdmin => "phpmyadmin"
  }

  /** The image substrings that make a running container a link target. */
  function Targets(t: Tool): seq<string> {
    match t
    case RedisInsight => ["redis"]
    case PhpMyAdmin => ["mysql", "mariadb"]
  }

  function DefaultHostPort(t: Tool): string {
    match t
    case RedisInsight => "8001"
    case PhpMyAdmin => "8080"
  }

  function ImageRef(t: Tool): string {
    match t
    case RedisInsight => "redis/redisinsight:latest"
    case PhpMyAdmin => "phpmyadmin/phpmyadmin"
  }

  function ContainerPort(t: Tool): string {
    match t
    case RedisInsight => "5540"
    case PhpMyAdmin => "80"
  }

  /** The literal run vectors. The selected container enters only phpMyAdmin's,
      as PMA_HOST; RedisInsight's user adds the database in its own UI. */
  function ToolArgs(t: Tool, selected: string, port: string): (args: seq<string>)
    ensures |args| >= 11
    ensures args[..8] == ["run", "-d", "--restart", "unless-stopped", "--network", ManagedNetwork, "--name", ContainerOf(t)]
    ensures args[|args| - 3..] == ["-p", port + ":" + ContainerPort(t), ImageRef(t)]
    ensures t == RedisInsight ==> |args| == 11
    ensures t == PhpMyAdmin ==> |args| == 13 && args[8..10] == ["-e", "PMA_HOST=" + selected]
  {
    match t
    case RedisInsight =>
      ["run", "-d", "--restart", "unless-stopped", "--network", "ContainDB-Network", "--name", "redisinsight",
       "-p", port + ":" + "5540", "redis/redisinsight:latest"]
    case PhpMyAdmin =>
      ["run", "-d", "--restart", "unless-stopped", "--network", "ContainDB-Network", "--name", "phpmyadmin",
       "-e", "PMA_HOST=" + selected, "-p", port + ":" + "80", "phpmyadmin/phpmyadmin"]
  }

  /** The answers: replace the existing container?, the item picked from the
      targets followed by "Exit", and the host-port line. */
  datatype ToolAnswers = ToolAnswers(replace: Pick, select: Pick, portLine: string)

  datatype ToolOutcome = ToolKept | ToolReplaceFailed | NoLinkTarget | ToolExited | ToolRunFailed | ToolStarted

  /** Whether the flow goes on past the existing-container check. */
  datatype Gate = Proceed | Stop(outcome: Ended<ToolOutcome>)

  /** The existing-container check: nothing running goes on; otherwise the user
      replaces it (`rm -f`, stopping if that fails), declines (the setup stops),
      or the prompt ends the process. */
  function ReplaceTrace(m: Machine, w: World, t: Tool, ans: ToolAnswers): Trace<Gate> {
    var name := ContainerOf(t);
    var check := IsContainerRunningTrace(m, w, name, true);
    if !check.result then Trace(w, check.issued, Proceed)
    else
      match AskYesNo(ans.replace)
      case Halted(code) => Trace(w, check.issued, Stop(Halted(code)))
      case Returned(replace) =>
        if !replace then Trace(w, check.issued, Stop(Returned(ToolKept)))
        else
          var rm := Issue(m, w, Docker(Rm(name)));
          Trace(rm.world, check.issued + rm.issued, if rm.result.ok then Proceed else Stop(Returned(ToolReplaceFailed)))
  }

  /** A select prompt fails, or returns one of its items. */
  predicate SelectFails(items: seq<string>, p: Pick) {
    p.PickFailed? || p.i >= |items|
  }

  /** The pull, whose outcome is ignored, and the run. */
  function LaunchToolTrace(m: Machine, w: World, t: Tool, selected: string, port: string): Trace<ToolOutcome> {
    var pull := Issue(m, w, Docker(Pull(ImageRef(t))));
    var run := Issue(m, pull.world, Docker(Run(ToolArgs(t, selected, port))));
    Trace(run.world, pull.issued + run.issued, if run.result.ok then ToolStarted else ToolRunFailed)
  }

  /** From the target listing on. A failed selection rolls back: Cleanup, which
      ends the process. */
  function LinkTrace(m: Machine, w: World, t: Tool, ans: ToolAnswers): Trace<Ended<ToolOutcome>> {
    var list := ListOfContainersTrace(m, w, Targets(t));
    if list.result == [] then Trace(w, list.issued, Returned(NoLinkTarget))
    else
      var items := list.result + ["Exit"];
      if SelectFails(items, ans.select) then
        var c := CleanupOver(m, w, Statuses);
        Trace(c.world, list.issued + c.issued, Halted(c.result))
      else if items[ans.select.i] == "Exit" then Trace(w, list.issued, Returned(ToolExited))
      else
        var port := AskForInput(ans.portLine, DefaultHostPort(t));
        var l := LaunchToolTrace(m, w, t, items[ans.select.i], port);
        Trace(l.world, list.issued + l.issued, Returned(l.result))
  }

  /** StartRedisInsight / StartPHPMyAdmin. */
  function StartToolTrace(m: Machine, w: World, t: Tool, ans: ToolAnswers): Trace<Ended<ToolOutcome>> {
    var gate := ReplaceTrace(m, w, t, ans);
    match gate.result
    case Stop(o) => Trace(gate.world, gate.issued, o)
    case Proceed =>
      var link := LinkTrace(m, gate.world, t, ans);
      Trace(link.world, gate.issued + link.issued, link.result)
  }

  method Replace(h: Host, t: Tool, ans: ToolAnswers) returns (gate: Gate)
    modifies h
    ensures var tr := ReplaceTrace(h.machine, old(h.State()), t, ans);
      h.State() == tr.world && h.log == old(h.log) + tr.issued && gate == tr.result
  {
    var name := ContainerOf(t);
    var running := IsContainerRunning(h, name, true);
    if !running {
      return Proceed;
    }
    var answer := AskYesNo(ans.replace);
    if answer.Halted? {
      return Stop(Halted(answer.code));
    }
    if !answer.value {
      return Stop(Returned(ToolKept));
    }
    var r := h.Exec(Docker(Rm(name)));
    AppendAssoc(old(h.log), [Docker(RunningQuery(name, true))], [Docker(Rm(name))]);
    if !r.ok {
      return Stop(Returned(ToolReplaceFailed));
    }
    return Proceed;
  }

  method LaunchTool(h: Host, t: Tool, selected: string, port: string) returns (outcome: ToolOutcome)
    modifies h
    ensures var tr := LaunchToolTrace(h.machine, old(h.State()), t, selected, port);
      h.State() == tr.world && h.log == old(h.log) + tr.issued && outcome == tr.result
  {
    var _ := h.Exec(Docker(Pull(ImageRef(t))));
    var r := h.Exec(Docker(Run(ToolArgs(t, selected, port))));
    AppendAssoc(old(h.log), [Docker(Pull(ImageRef(t)))], [Docker(Run(ToolArgs(t, selected, port)))]);
    outcome := if r.ok then ToolStarted else ToolRunFailed;
  }

  method Link(h: Host, t: Tool, ans: ToolAnswers) returns (outcome: Ended<ToolOutcome>)
    modifies h
    ensures var tr := LinkTrace(h.machine, old(h.State()), t, ans);
      h.State() == tr.world && h.log == old(h.log) + tr.issued && outcome == tr.result
  {
    ghost var w0 := h.State();
    var found := ListOfContainers(h, Targets(t));
    ghost var list := ListOfContainersTrace(h.machine, w0, Targets(t));
    if found == [] {
      return Returned(NoLinkTarget);
    }
    var items := found + ["Exit"];
    if SelectFails(items, ans.select) {
      var code := Cleanup(h);
      AppendAssoc(old(h.log), list.issued, CleanupOver(h.machine, w0, Statuses).issued);
      return Halted(code);
    }
    var selected := items[ans.select.i];
    if selected == "Exit" {
      return Returned(ToolExited);
    }
    var port := AskForInput(ans.portLine, DefaultHostPort(t));
    var launched := LaunchTool(h, t, selected, port);
    AppendAssoc(old(h.log), list.issued, LaunchToolTrace(h.machine, w0, t, selected, port).issued);
    return Returned(launched);
  }

  method StartTool(h: Host, t: Tool, ans: ToolAnswers) returns (outcome: Ended<ToolOutcome>)
    modifies h
    ensures var tr := StartToolTrace(h.machine, old(h.State()), t, ans);
      h.State() == tr.world && h.log == old(h.log) + tr.issued && outcome == tr.result
  {
    var gate := Replace(h, t, ans);
    if gate.Stop? {
      return gate.outcome;
    }
    ghost var w1 := h.State();
    ghost var g := ReplaceTrace(h.machine, old(h.State()), t, ans);
    outcome := Link(h, t, ans);
    AppendAssoc(old(h.log), g.issued, LinkTrace(h.machine, w1, t, ans).issued);
  }

  // ---------------------------------------------------------------------------
  // Properties.

  lemma StartToolUnfolds(m: Machine, w: World, t: Tool, ans: ToolAnswers)
    requires ReplaceTrace(m, w, t, ans).result == Proceed
    ensures var gate := ReplaceTrace(m, w, t, ans); var link := LinkTrace(m, gate.world, t, ans);
      StartToolTrace(m, w, t, ans) == Trace(link.world, gate.issued + link.issued, link.result)
  {
  }

  /** A running tool container that the user keeps: nothing is issued after the check. */
  lemma DeclineAborts(m: Machine, w: World, t: Tool, ans: ToolAnswers)
    requires IsContainerRunningTrace(m, w, ContainerOf(t), true).result
    requires ans.replace.Index? && ans.replace.i != 0 && ans.replace.i != 2
    ensures var tr := StartToolTrace(m, w, t, ans);
      tr == Trace(w, [Docker(Ps(false, "name=" + ContainerOf(t), NamesFormat))], Returned(ToolKept))
  {
  }

  /** Replacing issues `rm -f <tool>` after the check; the flow goes on exactly when it succeeds. */
  lemma ReplaceRemovesFirst(m: Machine, w: World, t: Tool, ans: ToolAnswers)
    requires IsContainerRunningTrace(m, w, ContainerOf(t), true).result
    requires ans.replace == Index(0)
    ensures var gate := ReplaceTrace(m, w, t, ans);
      && gate.issued == [Docker(RunningQuery(ContainerOf(t), true)), Docker(Rm(ContainerOf(t)))]
      && (gate.result == Proceed <==> Rm(ContainerOf(t)) !in m.refuses)
      && (Rm(ContainerOf(t)) in m.refuses ==> gate == Trace(w, gate.issued, Stop(Returned(ToolReplaceFailed))))
  {
    var name := ContainerOf(t);
    assert AskYesNo(ans.replace) == Returned(true);
    var rm := Issue(m, w, Docker(Rm(name)));
    assert ReplaceTrace(m, w, t, ans)
      == Trace(rm.world, [Docker(RunningQuery(name, true))] + rm.issued,
               if rm.result.ok then Proceed else Stop(Returned(ToolReplaceFailed)));
    assert rm.result.ok <==> Rm(name) !in m.refuses;
    assert Rm(name) in m.refuses ==> rm.world == w;
  }

  /** A refused removal ends the flow there, before any listing, pull or run. */
  lemma RefusedReplaceStops(m: Machine, w: World, t: Tool, ans: ToolAnswers)
    requires IsContainerRunningTrace(m, w, ContainerOf(t), true).result
    requires ans.replace == Index(0) && Rm(ContainerOf(t)) in m.refuses
    ensures StartToolTrace(m, w, t, ans)
      == Trace(w, [Docker(RunningQuery(ContainerOf(t), true)), Docker(Rm(ContainerOf(t)))], Returned(ToolReplaceFailed))
  {
    ReplaceRemovesFirst(m, w, t, ans);
    GateStops(m, w, t, ans);
  }

  /** A gate that stops ends the flow with the gate's own actions and outcome. */
  lemma GateStops(m: Machine, w: World, t: Tool, ans: ToolAnswers)
    requires ReplaceTrace(m, w, t, ans).result.Stop?
    ensures var gate := ReplaceTrace(m, w, t, ans);
      StartToolTrace(m, w, t, ans) == Trace(gate.world, gate.issued, gate.result.outcome)
  {
  }

  /** With no target listed, the flow ends after the listing. */
  lemma NoTargetReturns(m: Machine, w: World, t: Tool, ans: ToolAnswers)
    requires ListOfContainersTrace(m, w, Targets(t)).result == []
    ensures LinkTrace(m, w, t, ans) == Trace(w, [Docker(ListQuery)], Returned(NoLinkTarget))
  {
  }

  /** No running container's image contains a target exactly when none is listed. */
  lemma NoRunningTarget(m: Machine, w: World, t: Tool)
    requires WellFormed(w) && ListQuery !in m.refuses
    requires forall c :: c in w.containers && IsUp(c.status) ==> !AnyContained(c.image, Targets(t))
    ensures ListOfContainersTrace(m, w, Targets(t)).result == []
  {
    ListOfContainersExact(m, w, Targets(t));
    RunningMatchesNone(w.containers, Targets(t));
  }

  lemma {:induction false} RunningMatchesNone(cs: seq<Container>, images: seq<string>)
    requires forall c :: c in cs && IsUp(c.status) ==> !AnyContained(c.image, images)
    ensures RunningMatches(cs, images) == []
  {
    if cs != [] {
      assert cs[0] in cs;
      assert forall c :: c in cs[1..] ==> c in cs;
      RunningMatchesNone(cs[1..], images);
    }
  }

  /** Picking "Exit" ends the flow after the listing. The last item is always "Exit". */
  lemma ExitReturns(m: Machine, w: World, t: Tool, ans: ToolAnswers)
    requires ListOfContainersTrace(m, w, Targets(t)).result != []
    requires ans.select == Index(|ListOfContainersTrace(m, w, Targets(t)).result|)
    ensures LinkTrace(m, w, t, ans) == Trace(w, [Docker(ListQuery)], Returned(ToolExited))
  {
  }

  /** A failed selection rolls back: the Cleanup actions follow the listing and the
      process ends with status 1. */
  lemma SelectFailureRollsBack(m: Machine, w: World, t: Tool, ans: ToolAnswers)
    requires ListOfContainersTrace(m, w, Targets(t)).result != []
    requires ans.select == PickFailed
    ensures var c := CleanupOver(m, w, Statuses);
      LinkTrace(m, w, t, ans) == Trace(c.world, [Docker(ListQuery)] + c.issued, Halted(1))
  {
  }

  lemma LinkUnfolds(m: Machine, w: World, t: Tool, ans: ToolAnswers)
    requires ListOfContainersTrace(m, w, Targets(t)).result != []
    requires !SelectFails(ListOfContainersTrace(m, w, Targets(t)).result + ["Exit"], ans.select)
    requires (ListOfContainersTrace(m, w, Targets(t)).result + ["Exit"])[ans.select.i] != "Exit"
    ensures var selected := (ListOfContainersTrace(m, w, Targets(t)).result + ["Exit"])[ans.select.i];
      var l := LaunchToolTrace(m, w, t, selected, AskForInput(ans.portLine, DefaultHostPort(t)));
      LinkTrace(m, w, t, ans) == Trace(l.world, [Docker(ListQuery)] + l.issued, Returned(l.result))
  {
  }

  /** A picked container: the pull, then exactly one run, whatever the pull did,
      with the host port from the port prompt. */
  lemma LinkLaunches(m: Machine, w: World, t: Tool, ans: ToolAnswers)
    requires ListOfContainersTrace(m, w, Targets(t)).result != []
    requires !SelectFails(ListOfContainersTrace(m, w, Targets(t)).result + ["Exit"], ans.select)
    requires (ListOfContainersTrace(m, w, Targets(t)).result + ["Exit"])[ans.select.i] != "Exit"
    ensures var selected := (ListOfContainersTrace(m, w, Targets(t)).result + ["Exit"])[ans.select.i];
      var port := AskForInput(ans.portLine, DefaultHostPort(t));
      var tr := LinkTrace(m, w, t, ans);
      && tr.issued == [Docker(ListQuery), Docker(Pull(ImageRef(t))), Docker(Run(ToolArgs(t, selected, port)))]
      && (tr.result == Returned(ToolStarted) <==> Run(ToolArgs(t, selected, port)) !in m.refuses)
      && selected in ListOfContainersTrace(m, w, Targets(t)).result
  {
    var list := ListOfContainersTrace(m, w, Targets(t)).result;
    var items := list + ["Exit"];
    assert items[|list|] == "Exit";
    assert items[ans.select.i] == list[ans.select.i];
    LinkUnfolds(m, w, t, ans);
    LaunchToolCases(m, w, t, items[ans.select.i], AskForInput(ans.portLine, DefaultHostPort(t)));
  }

  /** The pull, then the run, started exactly when the run is answered. */
  lemma LaunchToolCases(m: Machine, w: World, t: Tool, selected: string, port: string)
    ensures var l := LaunchToolTrace(m, w, t, selected, port);
      && l.issued == [Docker(Pull(ImageRef(t))), Docker(Run(ToolArgs(t, selected, port)))]
      && (l.result == ToolStarted <==> Run(ToolArgs(t, selected, port)) !in m.refuses)
  {
    assert Apply(m, w, Docker(Pull(ImageRef(t)))) == w;
  }

  /** RedisInsight's run vector. */
  lemma RedisInsightArgs(selected: string, port: string)
    ensures ToolArgs(RedisInsight, selected, port) ==
      ["run", "-d", "--restart", "unless-stopped", "--network", "ContainDB-Network", "--name", "redisinsight",
       "-p", port + ":5540", "redis/redisinsight:latest"]
    ensures ToolArgs(RedisInsight, selected, port) == ToolArgs(RedisInsight, "", port)
  {
    assert port + ":" + "5540" == port + ":5540" by {
      ConcatAssoc(port, ":", "5540");
    }
  }

  /** phpMyAdmin's run vector. */
  lemma PhpMyAdminArgs(selected: string, port: string)
    ensures ToolArgs(PhpMyAdmin, selected, port) ==
      ["run", "-d", "--restart", "unless-stopped", "--network", "ContainDB-Network", "--name", "phpmyadmin",
       "-e", "PMA_HOST=" + selected, "-p", port + ":80", "phpmyadmin/phpmyadmin"]
  {
    assert port + ":" + "80" == port + ":80" by {
      ConcatAssoc(port, ":", "80");
    }
  }

  /** A blank port line gives the tool's default host port. */
  lemma DefaultToolPort(t: Tool, ans: ToolAnswers)
    requires AllSpace(ans.portLine)
    ensures AskForInput(ans.portLine, DefaultHostPort(t)) == DefaultHostPort(t)
    ensures DefaultHostPort(t) == if t == RedisInsight then "8001" else "8080"
  {
  }
}
