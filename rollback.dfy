/** src/tools/rollback.go: Cleanup, the rollback run when a prompt is interrupted.
    It force-removes every container in status exited, dead or created, prunes
    dangling images, deletes the downloaded MongoDB Compass package and ends the
    process with status 1. */
module Rollback {
  import opened Text
  import opened Runtime
  import opened Platform

  /** The statuses swept, in this order. */
  const Statuses: seq<string> := ["exited", "dead", "created"]

  const CompassPackage := "mongodb-compass.deb"

  /** `docker ps -a --filter status=<s> --format {{.ID}}`. */
  function StatusQuery(status: string): Cmd {
    Ps(true, "status=" + status, IdsFormat)
  }

  /** `<tempdir>/mongodb-compass.deb`. */
  function CompassPath(m: Machine): string {
    JoinPath(m.goos, GetTempDir(m.goos, m.tempVar), CompassPackage)
  }

  /** Only `docker ps` and `docker rm` commands. */
  predicate QueriesAndRemovals(actions: seq<Action>) {
    forall k :: 0 <= k < |actions| ==> actions[k].Docker? && (actions[k].cmd.Ps? || actions[k].cmd.Rm?)
  }

  /** The inner loop: `docker rm -f <id>` for every non-empty identifier, in order,
      whatever each removal answers. */
  function RemoveEachTrace(m: Machine, w: World, ids: seq<string>): Trace<()>
    decreases |ids|
  {
    if ids == [] then Trace(w, [], ())
    else
      var head := if ids[0] == "" then Trace(w, [], Reply(true, "")) else Issue(m, w, Docker(Rm(ids[0])));
      var rest := RemoveEachTrace(m, head.world, ids[1..]);
      Trace(rest.world, head.issued + rest.issued, ())
  }

  /** One status: the query, then, when it succeeded, the removal of every
      identifier it printed; a failed query removes nothing. */
  function SweepStatusTrace(m: Machine, w: World, status: string): Trace<()> {
    var q := Issue(m, w, Docker(StatusQuery(status)));
    if q.result.ok then
      var r := RemoveEachTrace(m, q.world, Fields(TrimSpace(q.result.output)));
      Trace(r.world, q.issued + r.issued, ())
    else Trace(q.world, q.issued, ())
  }

  /** The outer loop over the statuses. */
  function SweepTrace(m: Machine, w: World, statuses: seq<string>): Trace<()>
    decreases |statuses|
  {
    if statuses == [] then Trace(w, [], ())
    else
      var first := SweepStatusTrace(m, w, statuses[0]);
      var rest := SweepTrace(m, first.world, statuses[1..]);
      Trace(rest.world, first.issued + rest.issued, ())
  }

  /** Volumes, networks and files are not touched by container removal. */
  predicate OnlyContainersShrink(w: World, w': World) {
    && w'.volumes == w.volumes && w'.networks == w.networks && w'.files == w.files
    && (forall c :: c in w'.containers ==> c in w.containers)
  }

  /** Every identifier gets exactly one removal, in order: a failing removal
      neither stops the loop nor is retried. */
  lemma {:induction false} RemoveEachIssuesEveryId(m: Machine, w: World, ids: seq<string>)
    requires forall k :: 0 <= k < |ids| ==> ids[k] != ""
    ensures var t := RemoveEachTrace(m, w, ids);
      |t.issued| == |ids| && forall k :: 0 <= k < |ids| ==> t.issued[k] == Docker(Rm(ids[k]))
    decreases |ids|
  {
    if ids != [] {
      RemoveEachIssuesEveryId(m, Apply(m, w, Docker(Rm(ids[0]))), ids[1..]);
    }
  }

  /** The inner loop issues only removals and only removes containers. */
  lemma {:induction false} RemoveEachEffect(m: Machine, w: World, ids: seq<string>)
    ensures var t := RemoveEachTrace(m, w, ids);
      QueriesAndRemovals(t.issued) && OnlyContainersShrink(w, t.world)
      && (forall k :: 0 <= k < |t.issued| ==> t.issued[k].cmd.Rm?)
    decreases |ids|
  {
    if ids != [] {
      var head := if ids[0] == "" then Trace(w, [], Reply(true, "")) else Issue(m, w, Docker(Rm(ids[0])));
      RemoveEachEffect(m, head.world, ids[1..]);
    }
  }

  lemma QueriesAndRemovalsAppend(a: seq<Action>, b: seq<Action>)
    requires QueriesAndRemovals(a) && QueriesAndRemovals(b)
    ensures QueriesAndRemovals(a + b)
  {
    forall k | 0 <= k < |a + b|
      ensures (a + b)[k].Docker? && ((a + b)[k].cmd.Ps? || (a + b)[k].cmd.Rm?)
    {
      if k < |a| {
        assert (a + b)[k] == a[k];
      } else {
        assert (a + b)[k] == b[k - |a|];
      }
    }
  }

  /** One status: first its query; a failed query issues nothing more and changes
      nothing; a successful one is followed by one removal per printed identifier. */
  lemma SweepStatusShape(m: Machine, w: World, status: string)
    ensures var t := SweepStatusTrace(m, w, status);
      var q := Answer(m, w, Docker(StatusQuery(status)));
      && |t.issued| >= 1 && t.issued[0] == Docker(StatusQuery(status))
      && (!q.ok ==> t.issued == [Docker(StatusQuery(status))] && t.world == w)
      && (q.ok ==> t.issued[1..] == RemoveEachTrace(m, w, Fields(TrimSpace(q.output))).issued)
      && QueriesAndRemovals(t.issued) && OnlyContainersShrink(w, t.world)
  {
    var q := Issue(m, w, Docker(StatusQuery(status)));
    assert q.world == w && q.issued == [Docker(StatusQuery(status))];
    assert QueriesAndRemovals(q.issued);
    if q.result.ok {
      var ids := Fields(TrimSpace(q.result.output));
      RemoveEachEffect(m, w, ids);
      var r := RemoveEachTrace(m, w, ids);
      QueriesAndRemovalsAppend(q.issued, r.issued);
      assert (q.issued + r.issued)[1..] == r.issued;
    }
  }

  /** The sweep issues only queries and removals and only removes containers. */
  lemma {:induction false} SweepEffect(m: Machine, w: World, statuses: seq<string>)
    ensures var t := SweepTrace(m, w, statuses);
      QueriesAndRemovals(t.issued) && OnlyContainersShrink(w, t.world)
    decreases |statuses|
  {
    if statuses != [] {
      SweepStatusShape(m, w, statuses[0]);
      SweepEffect(m, SweepStatusTrace(m, w, statuses[0]).world, statuses[1..]);
    }
  }

  /** The sweep over the given statuses, then exactly one `docker image prune -f`,
      then the removal of the Compass package; the exit status is always 1. */
  function CleanupOver(m: Machine, w: World, statuses: seq<string>): (t: Trace<int>)
    ensures t.result == 1
    ensures |t.issued| >= 2
    ensures t.issued[|t.issued| - 2] == Docker(ImagePrune)
    ensures t.issued[|t.issued| - 1] == RemoveFile(CompassPath(m))
    ensures forall k :: 0 <= k < |t.issued| - 2 ==> t.issued[k] != Docker(ImagePrune)
    ensures t.world.files == w.files - {CompassPath(m)}
    ensures t.world.volumes == w.volumes && t.world.networks == w.networks
    ensures t.world.containers == SweepTrace(m, w, statuses).world.containers
  {
    SweepEffect(m, w, statuses);
    var sweep := SweepTrace(m, w, statuses);
    var prune := Issue(m, sweep.world, Docker(ImagePrune));
    var remove := Issue(m, prune.world, RemoveFile(CompassPath(m)));
    assert prune.world == sweep.world && prune.issued == [Docker(ImagePrune)];
    assert remove.world == sweep.world.(files := sweep.world.files - {CompassPath(m)});
    var issued := sweep.issued + prune.issued + remove.issued;
    assert issued == sweep.issued + [Docker(ImagePrune), RemoveFile(CompassPath(m))];
    assert issued[..|issued| - 2] == sweep.issued;
    Trace(remove.world, issued, 1)
  }

  // ---------------------------------------------------------------------------
  // What the sweep does to the runtime.

  /** The `docker ps` commands among the actions, in order. */
  function Queries(actions: seq<Action>): seq<Cmd> {
    if actions == [] then []
    else (if actions[0].Docker? && actions[0].cmd.Ps? then [actions[0].cmd] else []) + Queries(actions[1..])
  }

  lemma {:induction false} QueriesAppend(a: seq<Action>, b: seq<Action>)
    ensures Queries(a + b) == Queries(a) + Queries(b)
  {
    if a == [] {
      assert a + b == b;
    } else {
      assert (a + b)[0] == a[0];
      assert (a + b)[1..] == a[1..] + b;
      QueriesAppend(a[1..], b);
    }
  }

  lemma {:induction false} QueriesOfRemovals(a: seq<Action>)
    requires forall k :: 0 <= k < |a| ==> a[k].Docker? && a[k].cmd.Rm?
    ensures Queries(a) == []
  {
    if a != [] {
      QueriesOfRemovals(a[1..]);
    }
  }

  /** The status queries for the given statuses, in order. */
  function StatusQueries(statuses: seq<string>): (r: seq<Cmd>)
    ensures |r| == |statuses| && forall k :: 0 <= k < |statuses| ==> r[k] == StatusQuery(statuses[k])
  {
    if statuses == [] then [] else [StatusQuery(statuses[0])] + StatusQueries(statuses[1..])
  }

  /** A status pass queries once, for its own status. */
  lemma StatusPassQueries(m: Machine, w: World, status: string)
    ensures Queries(SweepStatusTrace(m, w, status).issued) == [StatusQuery(status)]
  {
    var first := SweepStatusTrace(m, w, status);
    SweepStatusShape(m, w, status);
    var q := Answer(m, w, Docker(StatusQuery(status)));
    if q.ok {
      RemoveEachEffect(m, w, Fields(TrimSpace(q.output)));
      assert first.issued == [first.issued[0]] + first.issued[1..];
      QueriesAppend([first.issued[0]], first.issued[1..]);
      QueriesOfRemovals(first.issued[1..]);
    }
  }

  lemma {:induction false} SweepQueryOrder(m: Machine, w: World, statuses: seq<string>)
    ensures Queries(SweepTrace(m, w, statuses).issued) == StatusQueries(statuses)
    decreases |statuses|
  {
    if statuses != [] {
      var first := SweepStatusTrace(m, w, statuses[0]);
      var rest := SweepTrace(m, first.world, statuses[1..]);
      assert SweepTrace(m, w, statuses).issued == first.issued + rest.issued;
      StatusPassQueries(m, w, statuses[0]);
      QueriesAppend(first.issued, rest.issued);
      SweepQueryOrder(m, first.world, statuses[1..]);
    }
  }

  /** Cleanup queries exited, then dead, then created. */
  lemma CleanupQueryOrder(m: Machine, w: World)
    ensures Queries(CleanupOver(m, w, Statuses).issued)
      == [StatusQuery("exited"), StatusQuery("dead"), StatusQuery("created")]
  {
    var sweep := SweepTrace(m, w, Statuses);
    SweepQueryOrder(m, w, Statuses);
    var tail := [Docker(ImagePrune), RemoveFile(CompassPath(m))];
    assert CleanupOver(m, w, Statuses).issued == sweep.issued + tail;
    QueriesAppend(sweep.issued, tail);
    assert tail[1..][1..] == [];
    assert Queries(tail[1..]) == [];
    assert Queries(tail) == [];
    assert StatusQueries(Statuses) == [StatusQuery("exited"), StatusQuery("dead"), StatusQuery("created")];
  }

  /** A refused status query skips that status alone: nothing is removed for it
      and the remaining statuses are processed from the same state. */
  lemma RefusedQuerySkipsOnlyThatStatus(m: Machine, w: World, statuses: seq<string>)
    requires statuses != [] && StatusQuery(statuses[0]) in m.refuses
    ensures var rest := SweepTrace(m, w, statuses[1..]);
      SweepTrace(m, w, statuses) == Trace(rest.world, [Docker(StatusQuery(statuses[0]))] + rest.issued, ())
  {
    SweepStatusShape(m, w, statuses[0]);
  }

  /** The identifiers of the containers. */
  function Ids(cs: seq<Container>): seq<string> {
    Rows(cs, IdsFormat)
  }

  /** The containers in the given state, in the runtime's order. */
  function InStatus(w: World, status: string): seq<Container> {
    Listed(w.containers, true, "status=" + status)
  }

  lemma StatusFilter(status: string, c: Container)
    ensures var f := "status=" + status;
      KnownFilter(f) && (Passes(c, f) <==> StatusName(c.status) == status)
  {
    var f := "status=" + status;
    assert f[0] == 's';
    assert !("name=" <= f) && !("ancestor=" <= f);
    assert "status=" <= f && f[7..] == status;
  }

  /** Against a well-formed runtime that answers it, a status query yields exactly
      the identifiers of the containers in that state, in order. */
  lemma StatusQueryListsIds(m: Machine, w: World, status: string)
    requires WellFormed(w) && StatusQuery(status) !in m.refuses
    ensures var q := Answer(m, w, Docker(StatusQuery(status)));
      q.ok && Fields(TrimSpace(q.output)) == Ids(InStatus(w, status))
    ensures forall c :: c in InStatus(w, status) <==> c in w.containers && StatusName(c.status) == status
  {
    StatusFilter(status, Container("", "", "", Running));
    forall c | c in w.containers
      ensures Passes(c, "status=" + status) <==> StatusName(c.status) == status
    {
      StatusFilter(status, c);
    }
    var ids := Ids(InStatus(w, status));
    forall k | 0 <= k < |ids|
      ensures IsToken(ids[k]) && Framed(ids[k])
    {
      assert InStatus(w, status)[k] in w.containers;
    }
    TrimSpaceOfLines(ids);
    FieldsOfJoin(ids);
  }

  /** An answered status query is followed by the removals of what it printed. */
  lemma StatusPassIssued(m: Machine, w: World, status: string)
    requires StatusQuery(status) !in m.refuses
    ensures var out := Answer(m, w, Docker(StatusQuery(status))).output;
      SweepStatusTrace(m, w, status).issued
        == [Docker(StatusQuery(status))] + RemoveEachTrace(m, w, Fields(TrimSpace(out))).issued
  {
    assert "status=" <= "status=" + status;
    assert Apply(m, w, Docker(StatusQuery(status))) == w;
  }

  /** A successful status pass issues the query and then one forced removal per
      container in that state, in order. */
  lemma StatusPassRemovesEachListed(m: Machine, w: World, status: string)
    requires WellFormed(w) && StatusQuery(status) !in m.refuses
    ensures var t := SweepStatusTrace(m, w, status);
      var listed := InStatus(w, status);
      && |t.issued| == 1 + |listed|
      && t.issued[0] == Docker(StatusQuery(status))
      && forall k :: 0 <= k < |listed| ==> t.issued[k + 1] == Docker(Rm(listed[k].id))
  {
    StatusQueryListsIds(m, w, status);
    StatusPassIssued(m, w, status);
    var listed := InStatus(w, status);
    var ids := Ids(listed);
    assert IdsFormat != NamesFormat;
    forall k | 0 <= k < |ids|
      ensures ids[k] == listed[k].id && ids[k] != ""
    {
      assert listed[k] in w.containers;
      assert ids[k] == Row(listed[k], IdsFormat);
    }
    RemoveEachIssuesEveryId(m, w, ids);
    var r := RemoveEachTrace(m, w, ids);
    var t := SweepStatusTrace(m, w, status);
    assert t.issued == [Docker(StatusQuery(status))] + r.issued;
    assert |r.issued| == |listed|;
    assert t.issued[1..] == r.issued;
    assert t.issued[0] == Docker(StatusQuery(status));
    forall k | 0 <= k < |listed|
      ensures t.issued[k + 1] == Docker(Rm(listed[k].id))
    {
      assert t.issued[1..][k] == r.issued[k];
      assert r.issued[k] == Docker(Rm(ids[k]));
      assert ids[k] == listed[k].id;
    }
  }

  lemma WellFormedShrink(w: World, w': World)
    requires WellFormed(w) && forall c :: c in w'.containers ==> c in w.containers
    ensures WellFormed(w')
  {
  }

  /** Removing by identifier keeps every container whose identifier and name are not listed. */
  lemma {:induction false} RemoveEachKeeps(m: Machine, w: World, ids: seq<string>, c: Container)
    requires c in w.containers && c.id !in ids && c.name !in ids
    ensures c in RemoveEachTrace(m, w, ids).world.containers
    decreases |ids|
  {
    if ids != [] {
      var head := if ids[0] == "" then Trace(w, [], Reply(true, "")) else Issue(m, w, Docker(Rm(ids[0])));
      assert c in head.world.containers;
      RemoveEachKeeps(m, head.world, ids[1..], c);
    }
  }

  /** When no removal is refused, no listed identifier survives. */
  lemma {:induction false} RemoveEachRemoves(m: Machine, w: World, ids: seq<string>)
    requires forall k :: 0 <= k < |ids| ==> ids[k] != "" && Rm(ids[k]) !in m.refuses
    ensures forall c :: c in RemoveEachTrace(m, w, ids).world.containers ==> c.id !in ids
    decreases |ids|
  {
    if ids != [] {
      var w1 := Apply(m, w, Docker(Rm(ids[0])));
      RemoveEachRemoves(m, w1, ids[1..]);
      RemoveEachEffect(m, w1, ids[1..]);
    }
  }

  /** A pass over one status never touches a container in another state. */
  lemma StatusPassKeepsOthers(m: Machine, w: World, status: string, c: Container)
    requires WellFormed(w) && c in w.containers && StatusName(c.status) != status
    ensures c in SweepStatusTrace(m, w, status).world.containers
  {
    SweepStatusShape(m, w, status);
    var q := Answer(m, w, Docker(StatusQuery(status)));
    if q.ok {
      assert StatusQuery(status) !in m.refuses;
      StatusQueryListsIds(m, w, status);
      var listed := InStatus(w, status);
      var ids := Ids(listed);
      forall k | 0 <= k < |ids|
        ensures ids[k] != c.id && ids[k] != c.name
      {
        assert listed[k] in w.containers;
      }
      RemoveEachKeeps(m, w, ids, c);
    }
  }

  /** The sweep never touches a container whose state is not swept. */
  lemma {:induction false} SweepKeepsOthers(m: Machine, w: World, statuses: seq<string>, c: Container)
    requires WellFormed(w) && c in w.containers && StatusName(c.status) !in statuses
    ensures c in SweepTrace(m, w, statuses).world.containers
    decreases |statuses|
  {
    if statuses != [] {
      var first := SweepStatusTrace(m, w, statuses[0]);
      StatusPassKeepsOthers(m, w, statuses[0], c);
      SweepStatusShape(m, w, statuses[0]);
      WellFormedShrink(w, first.world);
      SweepKeepsOthers(m, first.world, statuses[1..], c);
    }
  }

  /** When the runtime refuses no query and no removal, a pass leaves no container
      in that state. */
  lemma StatusPassClears(m: Machine, w: World, status: string)
    requires WellFormed(w)
    requires forall k :: k in m.refuses ==> !k.Ps? && !k.Rm?
    ensures forall c :: c in SweepStatusTrace(m, w, status).world.containers ==> StatusName(c.status) != status
  {
    StatusQueryListsIds(m, w, status);
    SweepStatusShape(m, w, status);
    var listed := InStatus(w, status);
    var ids := Ids(listed);
    forall k | 0 <= k < |ids|
      ensures ids[k] != "" && Rm(ids[k]) !in m.refuses
    {
      assert listed[k] in w.containers;
    }
    RemoveEachRemoves(m, w, ids);
    RemoveEachEffect(m, w, ids);
    IdsCover(listed);
  }

  lemma IdsCover(cs: seq<Container>)
    ensures forall c :: c in cs ==> c.id in Ids(cs)
  {
    forall c | c in cs
      ensures c.id in Ids(cs)
    {
      var k :| 0 <= k < |cs| && cs[k] == c;
      assert Ids(cs)[k] == c.id;
    }
  }

  /** The sweep leaves no container in a swept state. */
  lemma {:induction false} SweepClears(m: Machine, w: World, statuses: seq<string>)
    requires WellFormed(w)
    requires forall k :: k in m.refuses ==> !k.Ps? && !k.Rm?
    ensures forall c :: c in SweepTrace(m, w, statuses).world.containers ==> StatusName(c.status) !in statuses
    decreases |statuses|
  {
    if statuses != [] {
      var first := SweepStatusTrace(m, w, statuses[0]);
      StatusPassClears(m, w, statuses[0]);
      SweepStatusShape(m, w, statuses[0]);
      WellFormedShrink(w, first.world);
      SweepClears(m, first.world, statuses[1..]);
      SweepEffect(m, first.world, statuses[1..]);
    }
  }

  /** Cleanup against a well-formed runtime: containers in other states survive;
      if nothing is refused, none in exited, dead or created state remains. */
  lemma CleanupContainers(m: Machine, w: World)
    requires WellFormed(w)
    ensures forall c :: c in w.containers && StatusName(c.status) !in Statuses ==>
      c in CleanupOver(m, w, Statuses).world.containers
    ensures (forall k :: k in m.refuses ==> !k.Ps? && !k.Rm?) ==>
      forall c :: c in CleanupOver(m, w, Statuses).world.containers ==> StatusName(c.status) !in Statuses
  {
    forall c | c in w.containers && StatusName(c.status) !in Statuses
      ensures c in CleanupOver(m, w, Statuses).world.containers
    {
      SweepKeepsOthers(m, w, Statuses, c);
    }
    if forall k :: k in m.refuses ==> !k.Ps? && !k.Rm? {
      SweepClears(m, w, Statuses);
    }
  }

  /** The inner loop of Cleanup: force-remove every identifier, in order. */
  method RemoveEach(h: Host, ids: seq<string>)
    modifies h
    ensures var t := RemoveEachTrace(h.machine, old(h.State()), ids);
      h.State() == t.world && h.log == old(h.log) + t.issued
  {
    ghost var all := RemoveEachTrace(h.machine, h.State(), ids);
    var j := 0;
    while j < |ids|
      invariant 0 <= j <= |ids|
      invariant RemoveEachTrace(h.machine, h.State(), ids[j..]).world == all.world
      invariant h.log + RemoveEachTrace(h.machine, h.State(), ids[j..]).issued == old(h.log) + all.issued
    {
      var id := ids[j];
      assert ids[j..][1..] == ids[j + 1..];
      ghost var logBefore := h.log;
      ghost var rest := RemoveEachTrace(h.machine, Apply(h.machine, h.State(), Docker(Rm(id))), ids[j + 1..]);
      if id != "" {
        var _ := h.Exec(Docker(Rm(id)));
        AppendAssoc(logBefore, [Docker(Rm(id))], rest.issued);
      }
      j := j + 1;
    }
    assert ids[j..] == [];
  }

  /** One pass of the outer loop: query one status, remove what it lists. */
  method SweepStatus(h: Host, status: string)
    modifies h
    ensures var t := SweepStatusTrace(h.machine, old(h.State()), status);
      h.State() == t.world && h.log == old(h.log) + t.issued
  {
    var r := h.Exec(Docker(StatusQuery(status)));
    if r.ok {
      var ids := Fields(TrimSpace(r.output));
      ghost var afterQuery := h.State();
      RemoveEach(h, ids);
      AppendAssoc(old(h.log), [Docker(StatusQuery(status))], RemoveEachTrace(h.machine, afterQuery, ids).issued);
    }
  }

  /** The outer loop of Cleanup, over the given statuses. */
  method Sweep(h: Host, statuses: seq<string>)
    modifies h
    ensures var t := SweepTrace(h.machine, old(h.State()), statuses);
      h.State() == t.world && h.log == old(h.log) + t.issued
  {
    ghost var all := SweepTrace(h.machine, h.State(), statuses);
    var i := 0;
    while i < |statuses|
      invariant 0 <= i <= |statuses|
      invariant SweepTrace(h.machine, h.State(), statuses[i..]).world == all.world
      invariant h.log + SweepTrace(h.machine, h.State(), statuses[i..]).issued == old(h.log) + all.issued
    {
      assert statuses[i..][1..] == statuses[i + 1..];
      ghost var logBefore := h.log;
      ghost var step := SweepStatusTrace(h.machine, h.State(), statuses[i]);
      SweepStatus(h, statuses[i]);
      AppendAssoc(logBefore, step.issued, SweepTrace(h.machine, h.State(), statuses[i + 1..]).issued);
      i := i + 1;
    }
    assert statuses[i..] == [];
  }

  method Cleanup(h: Host) returns (code: int)
    modifies h
    ensures var t := CleanupOver(h.machine, old(h.State()), Statuses);
      h.State() == t.world && h.log == old(h.log) + t.issued && code == t.result
  {
    Sweep(h, Statuses);
    ghost var swept := h.log;
    var _ := h.Exec(Docker(ImagePrune));
    var _ := h.Exec(RemoveFile(CompassPath(h.machine)));
    ghost var sweep := SweepTrace(h.machine, old(h.State()), Statuses);
    AppendAssoc(old(h.log), sweep.issued, [Docker(ImagePrune)]);
    AppendAssoc(old(h.log), sweep.issued + [Docker(ImagePrune)], [RemoveFile(CompassPath(h.machine))]);
    code := 1;
  }
}
