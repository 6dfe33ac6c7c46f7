/** src/base/BaseCaseHandler.go: the top-level menu. Routines of the tool that
    this model does not include (the database selector, the listing routines,
    the in-use checks, image and database removal, compose export and import)
    appear as `Call` actions in the log, and what they return is part of the
    answers. */
module Menu {
  import opened Text
  import opened Runtime
  import opened DockerContainer
  import opened Rollback
  import opened Install
  import opened Tools

  /** The nine menu items, in order; the switch in the source compares their texts,
      which are pairwise different, so the model compares the datatype values. */
  datatype MenuAction =
    | InstallDatabase | ListDatabases | RemoveDatabase | RemoveImage | RemoveVolume
    | ImportServices | ExportServices | UpdateContainDB | ExitMenu

  const MenuItems: seq<MenuAction> :=
    [InstallDatabase, ListDatabases, RemoveDatabase, RemoveImage, RemoveVolume,
     ImportServices, ExportServices, UpdateContainDB, ExitMenu]

  /** What a routine that lists things returned: the names, and whether it failed. */
  datatype Listing = Listing(names: seq<string>, failed: bool)

  /** What IsImageInUse / IsVolumeInUse returned. */
  datatype InUseReport = InUseReport(inUse: bool, owner: string, failed: bool)

  datatype MenuAnswers = MenuAnswers(
    action: Pick,
    database: string,          // SelectDatabase's answer
    install: Answers,          // StartContainer's prompts
    tool: ToolAnswers,         // a companion tool's prompts
    listing: Listing,          // the listing routine of the chosen branch
    select: Pick,              // the item picked from that listing followed by "Exit"
    inUse: InUseReport,
    confirm: Pick,             // the Yes/No confirmation before a removal
    importPath: string, pathFailed: bool, importFailed: bool,
    exportPath: string)        // "" when the compose file could not be written

  /** How a menu branch ends, as far as the caller can tell. */
  datatype Report =
    | Done | Names(names: seq<string>) | ListFailed | NothingFound | Cancelled
    | CheckFailed | Refused(owner: string) | ExportFailed | ImportFailed | Goodbye | NotModelled

  function Finished<R>(e: Ended<R>): (r: Ended<Report>)
    ensures r.Halted? <==> e.Halted?
    ensures e.Halted? ==> r.code == e.code
    ensures e.Returned? ==> r == Returned(Done)
  {
    match e
    case Halted(code) => Halted(code)
    case Returned(_) => Returned(Done)
  }

  // ---------------------------------------------------------------------------
  // Install dispatch.

  datatype Route = ToPhpMyAdmin | ToCompass | ToPgAdmin | ToRedisInsight | ToStartContainer(db: string)

  function RouteOf(database: string): (r: Route)
    ensures database == "phpmyadmin" <==> r == ToPhpMyAdmin
    ensures database == "MongoDB Compass" <==> r == ToCompass
    ensures database == "PgAdmin" <==> r == ToPgAdmin
    ensures database == "Redis Insight" <==> r == ToRedisInsight
    ensures r.ToStartContainer? ==> r.db == database
  {
    match database
    case "phpmyadmin" => ToPhpMyAdmin
    case "MongoDB Compass" => ToCompass
    case "PgAdmin" => ToPgAdmin
    case "Redis Insight" => ToRedisInsight
    case _ => ToStartContainer(database)
  }

  function InstallTrace(m: Machine, w: World, ans: MenuAnswers): Trace<Ended<Report>> {
    match RouteOf(ans.database)
    case ToPhpMyAdmin =>
      var t := StartToolTrace(m, w, PhpMyAdmin, ans.tool);
      Trace(t.world, t.issued, Finished(t.result))
    case ToRedisInsight =>
      var t := StartToolTrace(m, w, RedisInsight, ans.tool);
      Trace(t.world, t.issued, Finished(t.result))
    case ToCompass => Trace(w, [Call("DownloadMongoDBCompass", "")], Returned(Done))
    case ToPgAdmin => Trace(w, [Call("StartPgAdmin", "")], Returned(Done))
    case ToStartContainer(db) =>
      var t := StartContainerTrace(m, w, db, ans.install);
      Trace(t.world, t.issued, Finished(t.result))
  }

  method InstallBranch(h: Host, ans: MenuAnswers) returns (outcome: Ended<Report>)
    modifies h
    ensures var t := InstallTrace(h.machine, old(h.State()), ans);
      h.State() == t.world && h.log == old(h.log) + t.issued && outcome == t.result
  {
    var route := RouteOf(ans.database);
    match route
    case ToPhpMyAdmin =>
      var r := StartTool(h, PhpMyAdmin, ans.tool);
      outcome := Finished(r);
    case ToRedisInsight =>
      var r := StartTool(h, RedisInsight, ans.tool);
      outcome := Finished(r);
    case ToCompass =>
      var _ := h.Exec(Call("DownloadMongoDBCompass", ""));
      outcome := Returned(Done);
    case ToPgAdmin =>
      var _ := h.Exec(Call("StartPgAdmin", ""));
      outcome := Returned(Done);
    case ToStartContainer(db) =>
      var r := StartContainer(h, db, ans.install);
      outcome := Finished(r);
  }

  // ---------------------------------------------------------------------------
  // The running-database list: the first companion-tool entry is dropped.

  predicate IsToolEntry(name: string) {
    name == "phpmyadmin" || name == "pgadmin" || name == "redisinsight"
  }

  /** The position of the first tool entry, or |names| when there is none. */
  function FirstTool(names: seq<string>): (i: nat)
    ensures i <= |names|
    ensures i < |names| ==> IsToolEntry(names[i])
    ensures forall k :: 0 <= k < i ==> !IsToolEntry(names[k])
  {
    if names == [] then 0
    else if IsToolEntry(names[0]) then 0
    else 1 + FirstTool(names[1..])
  }

  function WithoutFirstTool(names: seq<string>): seq<string> {
    var i := FirstTool(names);
    if i == |names| then names else names[..i] + names[i + 1..]
  }

  /** The loop at lines 47-58: scan, drop the first tool entry, stop. */
  method FilterTools(names: seq<string>) returns (kept: seq<string>)
    ensures kept == WithoutFirstTool(names)
  {
    kept := names;
    var i := 0;
    while i < |kept|
      invariant 0 <= i <= |kept| == |names|
      invariant kept == names
      invariant forall k :: 0 <= k < i ==> !IsToolEntry(names[k])
    {
      if kept[i] == "phpmyadmin" {
        kept := kept[..i] + kept[i + 1..];
        break;
      } else if kept[i] == "pgadmin" {
        kept := kept[..i] + kept[i + 1..];
        break;
      } else if kept[i] == "redisinsight" {
        kept := kept[..i] + kept[i + 1..];
        break;
      }
      i := i + 1;
    }
    FirstToolIs(names, i);
  }

  lemma {:induction false} FirstToolIs(names: seq<string>, i: nat)
    requires i <= |names|
    requires i < |names| ==> IsToolEntry(names[i])
    requires forall k :: 0 <= k < i ==> !IsToolEntry(names[k])
    ensures FirstTool(names) == i
  {
    if names != [] && i > 0 {
      FirstToolIs(names[1..], i - 1);
    }
  }

  /** At most one entry goes, and it is the first tool entry; the rest keep their order. */
  lemma FilterDropsAtMostOne(names: seq<string>)
    ensures var kept := WithoutFirstTool(names);
      && |names| - 1 <= |kept| <= |names|
      && ((forall k :: 0 <= k < |names| ==> !IsToolEntry(names[k])) ==> kept == names)
    ensures var i := FirstTool(names);
      i < |names| ==> WithoutFirstTool(names) == names[..i] + names[i + 1..] && IsToolEntry(names[i])
    ensures forall x :: x in WithoutFirstTool(names) ==> x in names
  {
    var i := FirstTool(names);
    if i == |names| {
    } else {
      forall x | x in names[..i] + names[i + 1..]
        ensures x in names
      {
        if x in names[..i] {
          var k :| 0 <= k < i && names[..i][k] == x;
          assert names[k] == x;
        } else {
          var k :| 0 <= k < |names[i + 1..]| && names[i + 1..][k] == x;
          assert names[i + 1 + k] == x;
        }
      }
    }
  }

  /** A second tool entry survives the filter: the filter drops one entry, not all. */
  lemma FilterKeepsSecondTool()
    ensures WithoutFirstTool(["phpmyadmin", "pgadmin", "mysql-container"]) == ["pgadmin", "mysql-container"]
  {
    assert FirstTool(["phpmyadmin", "pgadmin", "mysql-container"]) == 0;
  }

  function ListTrace(w: World, ans: MenuAnswers): Trace<Ended<Report>> {
    var kept := WithoutFirstTool(ans.listing.names);
    Trace(w, [Call("ListRunningDatabases", "")],
          Returned(if ans.listing.failed then ListFailed else Names(kept)))
  }

  method ListBranch(h: Host, ans: MenuAnswers) returns (outcome: Ended<Report>)
    modifies h
    ensures var t := ListTrace(old(h.State()), ans);
      h.State() == t.world && h.log == old(h.log) + t.issued && outcome == t.result
  {
    var _ := h.Exec(Call("ListRunningDatabases", ""));
    var names := FilterTools(ans.listing.names);
    if ans.listing.failed {
      return Returned(ListFailed);
    }
    return Returned(Names(names));
  }

  // ---------------------------------------------------------------------------
  // The three removal branches: list, pick, (check the owner, confirm,) remove.

  datatype Removal = DatabaseRemoval | ImageRemoval | VolumeRemoval

  function ListingRoutine(k: Removal): string {
    match k
    case DatabaseRemoval => "ListRunningDatabases"
    case ImageRemoval => "ListDatabaseImages"
    case VolumeRemoval => "ListContainDBVolumes"
  }

  function InUseRoutine(k: Removal): string {
    match k
    case DatabaseRemoval => ""
    case ImageRemoval => "IsImageInUse"
    case VolumeRemoval => "IsVolumeInUse"
  }

  /** The item picked, when the pick is neither a failure nor "Exit". */
  predicate Picked(names: seq<string>, p: Pick) {
    var items := names + ["Exit"];
    !SelectFails(items, p) && items[p.i] != "Exit"
  }

  /** The destructive step: RemoveDatabase or RemoveImage (not modelled, logged),
      or DockerContainer.RemoveVolume. Their errors are only printed. */
  function RemovalTrace(m: Machine, w: World, k: Removal, target: string): Trace<Ended<Report>> {
    match k
    case DatabaseRemoval => Trace(w, [Call("RemoveDatabase", target)], Returned(Done))
    case ImageRemoval => Trace(w, [Call("RemoveImage", target)], Returned(Done))
    case VolumeRemoval =>
      var r := RemoveVolumeTrace(m, w, target);
      Trace(r.world, r.issued, Returned(Done))
  }

  /** The guard for images and volumes, after the pick: the in-use check first; an
      owner refuses; otherwise the user confirms before the removal. */
  function GuardTrace(m: Machine, w: World, k: Removal, target: string, ans: MenuAnswers): Trace<Ended<Report>> {
    var check := [Call(InUseRoutine(k), target)];
    if ans.inUse.failed then Trace(w, check, Returned(CheckFailed))
    else if ans.inUse.inUse then Trace(w, check, Returned(Refused(ans.inUse.owner)))
    else
      match AskYesNo(ans.confirm)
      case Halted(code) => Trace(w, check, Halted(code))
      case Returned(yes) =>
        if !yes then Trace(w, check, Returned(Cancelled))
        else
          var r := RemovalTrace(m, w, k, target);
          Trace(r.world, check + r.issued, r.result)
  }

  function RemoveTrace(m: Machine, w: World, k: Removal, ans: MenuAnswers): Trace<Ended<Report>> {
    var list := [Call(ListingRoutine(k), "")];
    var names := ans.listing.names;
    if ans.listing.failed then Trace(w, list, Returned(ListFailed))
    else if names == [] then Trace(w, list, Returned(NothingFound))
    else if !Picked(names, ans.select) then Trace(w, list, Returned(Cancelled))
    else
      var target := (names + ["Exit"])[ans.select.i];
      var rest := if k == DatabaseRemoval then RemovalTrace(m, w, k, target) else GuardTrace(m, w, k, target, ans);
      Trace(rest.world, list + rest.issued, rest.result)
  }

  method RemoveTarget(h: Host, k: Removal, target: string) returns (outcome: Ended<Report>)
    modifies h
    ensures var t := RemovalTrace(h.machine, old(h.State()), k, target);
      h.State() == t.world && h.log == old(h.log) + t.issued && outcome == t.result
  {
    match k {
      case DatabaseRemoval =>
        var _ := h.Exec(Call("RemoveDatabase", target));
      case ImageRemoval =>
        var _ := h.Exec(Call("RemoveImage", target));
      case VolumeRemoval =>
        var _ := DockerContainer.RemoveVolume(h, target);
    }
    outcome := Returned(Done);
  }

  method Guard(h: Host, k: Removal, target: string, ans: MenuAnswers) returns (outcome: Ended<Report>)
    modifies h
    ensures var t := GuardTrace(h.machine, old(h.State()), k, target, ans);
      h.State() == t.world && h.log == old(h.log) + t.issued && outcome == t.result
  {
    var _ := h.Exec(Call(InUseRoutine(k), target));
    if ans.inUse.failed {
      return Returned(CheckFailed);
    }
    if ans.inUse.inUse {
      return Returned(Refused(ans.inUse.owner));
    }
    var yes := AskYesNo(ans.confirm);
    if yes.Halted? {
      return Halted(yes.code);
    }
    if !yes.value {
      return Returned(Cancelled);
    }
    ghost var w1 := h.State();
    outcome := RemoveTarget(h, k, target);
    AppendAssoc(old(h.log), [Call(InUseRoutine(k), target)], RemovalTrace(h.machine, w1, k, target).issued);
  }

  method RemoveBranch(h: Host, k: Removal, ans: MenuAnswers) returns (outcome: Ended<Report>)
    modifies h
    ensures var t := RemoveTrace(h.machine, old(h.State()), k, ans);
      h.State() == t.world && h.log == old(h.log) + t.issued && outcome == t.result
  {
    var _ := h.Exec(Call(ListingRoutine(k), ""));
    var names := ans.listing.names;
    if ans.listing.failed {
      return Returned(ListFailed);
    }
    if |names| == 0 {
      return Returned(NothingFound);
    }
    if !Picked(names, ans.select) {
      return Returned(Cancelled);
    }
    var target := (names + ["Exit"])[ans.select.i];
    ghost var w1 := h.State();
    if k == DatabaseRemoval {
      outcome := RemoveTarget(h, k, target);
      AppendAssoc(old(h.log), [Call(ListingRoutine(k), "")], RemovalTrace(h.machine, w1, k, target).issued);
    } else {
      outcome := Guard(h, k, target, ans);
      AppendAssoc(old(h.log), [Call(ListingRoutine(k), "")], GuardTrace(h.machine, w1, k, target, ans).issued);
    }
  }

  // ---------------------------------------------------------------------------
  // The handler.

  function OtherTrace(w: World, a: MenuAction, ans: MenuAnswers): Trace<Ended<Report>> {
    match a
    case ExportServices =>
      Trace(w, [Call("MakeDockerComposeWithAllServices", "")],
            Returned(if ans.exportPath == "" then ExportFailed else Done))
    case ImportServices =>
      if ans.pathFailed then Trace(w, [], Returned(ImportFailed))
      else Trace(w, [Call("ImportDockerServices", ans.importPath)],
                 Returned(if ans.importFailed then ImportFailed else Done))
    case UpdateContainDB => Trace(w, [], Returned(NotModelled))
    case _ => Trace(w, [], Returned(Goodbye))
  }

  /** Export, import, update and exit: the branches that only hand over to a routine or return. */
  method OtherBranch(h: Host, a: MenuAction, ans: MenuAnswers) returns (outcome: Ended<Report>)
    modifies h
    ensures var t := OtherTrace(old(h.State()), a, ans);
      h.State() == t.world && h.log == old(h.log) + t.issued && outcome == t.result
  {
    match a {
      case ExportServices =>
        var _ := h.Exec(Call("MakeDockerComposeWithAllServices", ""));
        outcome := Returned(if ans.exportPath == "" then ExportFailed else Done);
      case ImportServices =>
        if ans.pathFailed {
          return Returned(ImportFailed);
        }
        var _ := h.Exec(Call("ImportDockerServices", ans.importPath));
        outcome := Returned(if ans.importFailed then ImportFailed else Done);
      case UpdateContainDB =>
        outcome := Returned(NotModelled);
      case _ =>
        outcome := Returned(Goodbye);
    }
  }

  /** BaseCaseHandler: a failed top-level prompt rolls back (Cleanup ends the
      process); otherwise the chosen branch runs. */
  function HandlerTrace(m: Machine, w: World, ans: MenuAnswers): Trace<Ended<Report>> {
    if (ans.action.PickFailed? || ans.action.i >= |MenuItems|) then
      var c := CleanupOver(m, w, Statuses);
      Trace(c.world, c.issued, Halted(c.result))
    else
      match MenuItems[ans.action.i]
      case InstallDatabase => InstallTrace(m, w, ans)
      case ListDatabases => ListTrace(w, ans)
      case RemoveDatabase => RemoveTrace(m, w, DatabaseRemoval, ans)
      case RemoveImage => RemoveTrace(m, w, ImageRemoval, ans)
      case RemoveVolume => RemoveTrace(m, w, VolumeRemoval, ans)
      case other => OtherTrace(w, other, ans)
  }

  method BaseCaseHandler(h: Host, ans: MenuAnswers) returns (outcome: Ended<Report>)
    modifies h
    ensures var t := HandlerTrace(h.machine, old(h.State()), ans);
      h.State() == t.world && h.log == old(h.log) + t.issued && outcome == t.result
  {
    if (ans.action.PickFailed? || ans.action.i >= |MenuItems|) {
      var code := Cleanup(h);
      return Halted(code);
    }
    var action := MenuItems[ans.action.i];
    match action
    case InstallDatabase =>
      outcome := InstallBranch(h, ans);
    case ListDatabases =>
      outcome := ListBranch(h, ans);
    case RemoveDatabase =>
      outcome := RemoveBranch(h, DatabaseRemoval, ans);
    case RemoveImage =>
      outcome := RemoveBranch(h, ImageRemoval, ans);
    case RemoveVolume =>
      outcome := RemoveBranch(h, VolumeRemoval, ans);
    case other =>
      outcome := OtherBranch(h, other, ans);
  }

  // ---------------------------------------------------------------------------
  // What the handler guarantees.

  /** A failed top-level prompt runs the rollback and nothing else, and exits with 1. */
  lemma FailedPromptRollsBack(m: Machine, w: World, ans: MenuAnswers)
    requires ans.action.PickFailed? || ans.action.i >= |MenuItems|
    ensures var t := HandlerTrace(m, w, ans);
      && t == Trace(CleanupOver(m, w, Statuses).world, CleanupOver(m, w, Statuses).issued, Halted(1))
      && t.issued[|t.issued| - 1] == RemoveFile(CompassPath(m))
  {
  }

  /** Install Database hands over to exactly one flow, chosen by the selected name. */
  lemma InstallRoutes(m: Machine, w: World, ans: MenuAnswers)
    requires ans.action == Index(0)
    ensures var t := HandlerTrace(m, w, ans);
      && (ans.database == "phpmyadmin" ==> t.issued == StartToolTrace(m, w, PhpMyAdmin, ans.tool).issued)
      && (ans.database == "Redis Insight" ==> t.issued == StartToolTrace(m, w, RedisInsight, ans.tool).issued)
      && (ans.database == "MongoDB Compass" ==> t == Trace(w, [Call("DownloadMongoDBCompass", "")], Returned(Done)))
      && (ans.database == "PgAdmin" ==> t == Trace(w, [Call("StartPgAdmin", "")], Returned(Done)))
      && (RouteOf(ans.database).ToStartContainer? ==>
            t.issued == StartContainerTrace(m, w, ans.database, ans.install).issued
            && t.world == StartContainerTrace(m, w, ans.database, ans.install).world)
  {
    assert MenuItems[0] == InstallDatabase;
  }

  /** A database name other than the four tools reaches StartContainer, whose first
      action checks whether the image already runs. */
  lemma InstallChecksFirst(m: Machine, w: World, ans: MenuAnswers)
    requires ans.action == Index(0)
    requires RouteOf(ans.database).ToStartContainer?
    ensures HandlerTrace(m, w, ans).issued[0] == Docker(RunningQuery(ImageOf(ans.database), false))
  {
    InstallRoutes(m, w, ans);
    StartChecksFirst(m, w, ans.database, ans.install);
  }

  /** The list shown is the routine's list less its first tool entry. */
  lemma ListShowsFiltered(m: Machine, w: World, ans: MenuAnswers)
    requires ans.action == Index(1) && !ans.listing.failed
    ensures var t := HandlerTrace(m, w, ans);
      && t.world == w
      && t.result == Returned(Names(WithoutFirstTool(ans.listing.names)))
  {
    assert MenuItems[1] == ListDatabases;
  }

  /** A destructive action: removing a database, an image or a volume. */
  predicate Destroys(a: Action) {
    || (a.Call? && (a.routine == "RemoveDatabase" || a.routine == "RemoveImage"))
    || (a.Docker? && a.cmd.VolumeRm?)
  }

  predicate DestroysSome(acts: seq<Action>) {
    exists j :: 0 <= j < |acts| && Destroys(acts[j])
  }

  /** Every guard of a removal branch passed: the listing worked and was not empty,
      a real item was picked, and (for images and volumes) it is not in use and the
      user said Yes. */
  predicate Cleared(k: Removal, ans: MenuAnswers) {
    && !ans.listing.failed
    && ans.listing.names != []
    && Picked(ans.listing.names, ans.select)
    && (k == DatabaseRemoval || (!ans.inUse.failed && !ans.inUse.inUse && ans.confirm == Index(0)))
  }

  function PickedName(ans: MenuAnswers): string
    requires Picked(ans.listing.names, ans.select)
  {
    (ans.listing.names + ["Exit"])[ans.select.i]
  }

  lemma PickedIsListed(names: seq<string>, p: Pick)
    requires Picked(names, p)
    ensures p.i < |names| && (names + ["Exit"])[p.i] == names[p.i]
  {
    assert (names + ["Exit"])[|names|] == "Exit";
  }

  lemma NoDestroyIn(a: seq<Action>, b: seq<Action>)
    requires !DestroysSome(a) && !DestroysSome(b)
    ensures !DestroysSome(a + b)
  {
    forall j | 0 <= j < |a + b|
      ensures !Destroys((a + b)[j])
    {
      if j < |a| {
        assert (a + b)[j] == a[j];
      } else {
        assert (a + b)[j] == b[j - |a|];
      }
    }
  }

  lemma GuardStops(m: Machine, w: World, k: Removal, target: string, ans: MenuAnswers)
    requires k != DatabaseRemoval
    requires ans.inUse.failed || ans.inUse.inUse || ans.confirm != Index(0)
    ensures GuardTrace(m, w, k, target, ans).issued == [Call(InUseRoutine(k), target)]
    ensures GuardTrace(m, w, k, target, ans).world == w
  {
  }

  /** No removal happens unless every guard passed; when they have, the branch is
      the listing, the in-use check for images and volumes, then the removal of
      the picked, listed name. */
  lemma RemovalIsGuarded(m: Machine, w: World, k: Removal, ans: MenuAnswers)
    ensures DestroysSome(RemoveTrace(m, w, k, ans).issued) ==> Cleared(k, ans)
    ensures Cleared(k, ans) ==>
      && PickedName(ans) in ans.listing.names
      && RemoveTrace(m, w, k, ans).issued ==
           [Call(ListingRoutine(k), "")]
           + (if k == DatabaseRemoval then [] else [Call(InUseRoutine(k), PickedName(ans))])
           + RemovalTrace(m, w, k, PickedName(ans)).issued
  {
    var t := RemoveTrace(m, w, k, ans);
    var list := [Call(ListingRoutine(k), "")];
    assert !DestroysSome(list) by {
      assert !Destroys(list[0]);
    }
    if Cleared(k, ans) {
      PickedIsListed(ans.listing.names, ans.select);
      if k != DatabaseRemoval {
        var target := PickedName(ans);
        AppendAssoc(list, [Call(InUseRoutine(k), target)], RemovalTrace(m, w, k, target).issued);
      }
    } else if ans.listing.failed || ans.listing.names == [] || !Picked(ans.listing.names, ans.select) {
      assert t.issued == list;
    } else {
      var target := PickedName(ans);
      GuardStops(m, w, k, target, ans);
      var check := [Call(InUseRoutine(k), target)];
      assert !Destroys(check[0]);
      assert t.issued == list + check;
      NoDestroyIn(list, check);
    }
  }

  /** An image or volume in use is never removed: the owner is reported and the
      branch has only asked for the list and the check. */
  lemma InUseRefuses(m: Machine, w: World, k: Removal, ans: MenuAnswers)
    requires k != DatabaseRemoval
    requires !ans.listing.failed && ans.listing.names != [] && Picked(ans.listing.names, ans.select)
    requires !ans.inUse.failed && ans.inUse.inUse
    ensures RemoveTrace(m, w, k, ans) ==
      Trace(w, [Call(ListingRoutine(k), ""), Call(InUseRoutine(k), PickedName(ans))],
            Returned(Refused(ans.inUse.owner)))
  {
  }

  /** Removing the picked image or database is one call of the removal routine on
      it; removing a volume goes through RemoveVolume on it. */
  lemma ClearedRemoves(m: Machine, w: World, k: Removal, ans: MenuAnswers)
    requires Cleared(k, ans)
    ensures k == DatabaseRemoval ==>
      RemoveTrace(m, w, k, ans).issued == [Call("ListRunningDatabases", ""), Call("RemoveDatabase", PickedName(ans))]
    ensures k == ImageRemoval ==>
      RemoveTrace(m, w, k, ans).issued ==
        [Call("ListDatabaseImages", ""), Call("IsImageInUse", PickedName(ans)), Call("RemoveImage", PickedName(ans))]
    ensures k == VolumeRemoval ==>
      && RemoveTrace(m, w, k, ans).issued ==
           [Call("ListContainDBVolumes", ""), Call("IsVolumeInUse", PickedName(ans))]
           + RemoveVolumeTrace(m, w, PickedName(ans)).issued
      && RemoveTrace(m, w, k, ans).world == RemoveVolumeTrace(m, w, PickedName(ans)).world
  {
    RemovalIsGuarded(m, w, k, ans);
  }

  /** The menu's removal entries are the three guarded branches. */
  lemma RemovalEntries(m: Machine, w: World, ans: MenuAnswers)
    ensures ans.action == Index(2) ==> HandlerTrace(m, w, ans) == RemoveTrace(m, w, DatabaseRemoval, ans)
    ensures ans.action == Index(3) ==> HandlerTrace(m, w, ans) == RemoveTrace(m, w, ImageRemoval, ans)
    ensures ans.action == Index(4) ==> HandlerTrace(m, w, ans) == RemoveTrace(m, w, VolumeRemoval, ans)
  {
    assert MenuItems[2] == RemoveDatabase && MenuItems[3] == RemoveImage && MenuItems[4] == RemoveVolume;
  }

  /** Exit leaves everything as it was. */
  lemma ExitDoesNothing(m: Machine, w: World, ans: MenuAnswers)
    requires ans.action == Index(8)
    ensures HandlerTrace(m, w, ans) == Trace(w, [], Returned(Goodbye))
  {
    assert MenuItems[8] == ExitMenu;
  }
}
