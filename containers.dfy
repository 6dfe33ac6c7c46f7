/** src/Docker/docker_container.go: the Yes/No prompt, the running check, the
    listing of running containers by image, and the volume helpers. */
module DockerContainer {
  import opened Text
  import opened Runtime

  /** What a Yes/No/Exit prompt gave back: the index of the item picked, or an error
      (the prompt was interrupted). */
  datatype Pick = Index(i: nat) | PickFailed

  /** AskYesNo: a failed prompt ends the process with status 1, the last item
      ("Exit") with status 0; otherwise the answer is "index 0 was picked". */
  function AskYesNo(p: Pick): (d: Ended<bool>)
    ensures d == Returned(true) <==> p == Index(0)
    ensures d == Returned(false) <==> p.Index? && p.i != 0 && p.i != 2
    ensures d == Halted(0) <==> p == Index(2)
    ensures d == Halted(1) <==> p == PickFailed
  {
    match p
    case PickFailed => Halted(1)
    case Index(i) => if i == 2 then Halted(0) else Returned(i == 0)
  }

  // ---------------------------------------------------------------------------
  // IsContainerRunning

  /** `docker ps --filter name=X --format {{.Names}}`, or `ancestor=X`. */
  function RunningQuery(nameOrImage: string, checkByName: bool): Cmd {
    Ps(false, (if checkByName then "name=" else "ancestor=") + nameOrImage, NamesFormat)
  }

  /** The container matches the query's filter (part of its name, or its image). */
  predicate MatchesQuery(c: Container, nameOrImage: string, checkByName: bool) {
    if checkByName then Contains(c.name, nameOrImage) else c.image == nameOrImage
  }

  /** IsContainerRunning: one query; running iff its trimmed output is not blank,
      so a failed query counts as not running. */
  function IsContainerRunningTrace(m: Machine, w: World, nameOrImage: string, checkByName: bool): (t: Trace<bool>)
    ensures t.world == w
    ensures t.issued == [Docker(RunningQuery(nameOrImage, checkByName))]
    ensures RunningQuery(nameOrImage, checkByName) in m.refuses ==> !t.result
  {
    var r := Answer(m, w, Docker(RunningQuery(nameOrImage, checkByName)));
    Trace(w, [Docker(RunningQuery(nameOrImage, checkByName))], TrimSpace(r.output) != "")
  }

  lemma QueryFilter(nameOrImage: string, checkByName: bool, c: Container)
    ensures var f := RunningQuery(nameOrImage, checkByName).filter;
      KnownFilter(f) && (Passes(c, f) <==> MatchesQuery(c, nameOrImage, checkByName))
  {
    var f := RunningQuery(nameOrImage, checkByName).filter;
    if checkByName {
      assert "name=" <= f && f[5..] == nameOrImage;
    } else {
      assert !("name=" <= f) by { assert f[0] == 'a'; }
      assert "ancestor=" <= f && f[9..] == nameOrImage;
    }
  }

  /** With token names, every row of a names-only listing is framed. */
  lemma RowsOfNamesFramed(cs: seq<Container>)
    requires forall c :: c in cs ==> IsToken(c.name)
    ensures forall i :: 0 <= i < |Rows(cs, NamesFormat)| ==> Framed(Rows(cs, NamesFormat)[i])
  {
  }

  /** Against a well-formed runtime the check is exact: it reports a container
      running iff the query is not refused and some listed container matches. */
  lemma IsContainerRunningExact(m: Machine, w: World, nameOrImage: string, checkByName: bool)
    requires WellFormed(w)
    ensures IsContainerRunningTrace(m, w, nameOrImage, checkByName).result <==>
      RunningQuery(nameOrImage, checkByName) !in m.refuses &&
      exists c :: c in w.containers && IsUp(c.status) && MatchesQuery(c, nameOrImage, checkByName)
  {
    var q := RunningQuery(nameOrImage, checkByName);
    if q !in m.refuses {
      var listed := Listed(w.containers, false, q.filter);
      var rows := Rows(listed, NamesFormat);
      forall c | c in w.containers
        ensures Passes(c, q.filter) <==> MatchesQuery(c, nameOrImage, checkByName)
      {
        QueryFilter(nameOrImage, checkByName, c);
      }
      QueryFilter(nameOrImage, checkByName, Container("", "", "", Running));
      RowsOfNamesFramed(listed);
      TrimSpaceOfLines(rows);
      if rows != [] {
        JoinFramed(rows);
        assert listed[0] in listed;
      }
    }
  }

  method IsContainerRunning(h: Host, nameOrImage: string, checkByName: bool) returns (running: bool)
    modifies h
    ensures var t := IsContainerRunningTrace(h.machine, old(h.State()), nameOrImage, checkByName);
      h.State() == t.world && h.log == old(h.log) + t.issued && running == t.result
  {
    var r := h.Exec(Docker(RunningQuery(nameOrImage, checkByName)));
    running := TrimSpace(r.output) != "";
  }

  // ---------------------------------------------------------------------------
  // ListOfContainers

  /** Some target image occurs in the image reference. */
  predicate AnyContained(image: string, images: seq<string>) {
    exists k :: 0 <= k < |images| && Contains(image, images[k])
  }

  /** What one `docker ps` line adds: its first field, when it is not empty and
      has at least two fields and its second field contains a target image. */
  function LineContribution(line: string, images: seq<string>): (r: seq<string>)
    ensures |r| <= 1
    ensures line == "" ==> r == []
  {
    var parts := Fields(line);
    if line != "" && |parts| >= 2 && AnyContained(parts[1], images) then [parts[0]] else []
  }

  /** The names reported for a sequence of lines: each line's contribution, in line order. */
  function Matching(lines: seq<string>, images: seq<string>): seq<string> {
    if lines == [] then [] else LineContribution(lines[0], images) + Matching(lines[1..], images)
  }

  lemma {:induction false} MatchingAppend(a: seq<string>, b: seq<string>, images: seq<string>)
    ensures Matching(a + b, images) == Matching(a, images) + Matching(b, images)
  {
    if a == [] {
      assert a + b == b;
    } else {
      assert (a + b)[0] == a[0];
      assert (a + b)[1..] == a[1..] + b;
      MatchingAppend(a[1..], b, images);
    }
  }

  /** Extending a prefix of the lines by one line adds that line's contribution. */
  lemma MatchingStep(lines: seq<string>, i: nat, images: seq<string>)
    requires i < |lines|
    ensures Matching(lines[..i + 1], images) == Matching(lines[..i], images) + LineContribution(lines[i], images)
  {
    assert lines[..i + 1] == lines[..i] + [lines[i]];
    MatchingAppend(lines[..i], [lines[i]], images);
    assert Matching([lines[i]], images) == LineContribution(lines[i], images) + Matching([], images);
  }

  /** The lines that are not empty. */
  function NonEmptyCount(lines: seq<string>): nat {
    if lines == [] then 0 else (if lines[0] != "" then 1 else 0) + NonEmptyCount(lines[1..])
  }

  /** At most one name per non-empty line. */
  lemma {:induction false} MatchingBound(lines: seq<string>, images: seq<string>)
    ensures |Matching(lines, images)| <= NonEmptyCount(lines)
  {
    if lines != [] {
      MatchingBound(lines[1..], images);
    }
  }

  /** Every reported name is the first field of some line whose second field contains a target. */
  lemma {:induction false} MatchingSound(lines: seq<string>, images: seq<string>, name: string)
    requires name in Matching(lines, images)
    ensures exists i :: (0 <= i < |lines| && |Fields(lines[i])| >= 2 && Fields(lines[i])[0] == name
      && AnyContained(Fields(lines[i])[1], images))
  {
    if name in LineContribution(lines[0], images) {
      assert |Fields(lines[0])| >= 2 && Fields(lines[0])[0] == name;
    } else {
      MatchingSound(lines[1..], images, name);
      var i :| 0 <= i < |lines[1..]| && |Fields(lines[1..][i])| >= 2 && Fields(lines[1..][i])[0] == name
        && AnyContained(Fields(lines[1..][i])[1], images);
      assert lines[i + 1] == lines[1..][i];
    }
  }

  /** The inner loop of ListOfContainers over the target images: the name is
      appended once, at the first image the line's image contains. */
  method AppendIfContained(containers: seq<string>, name: string, image: string, images: seq<string>)
    returns (out: seq<string>)
    ensures out == containers + (if AnyContained(image, images) then [name] else [])
  {
    out := containers;
    var j := 0;
    while j < |images|
      invariant 0 <= j <= |images|
      invariant out == containers
      invariant forall k :: 0 <= k < j ==> !Contains(image, images[k])
    {
      if Contains(image, images[j]) {
        out := out + [name];
        return;
      }
      j := j + 1;
    }
  }

  /** The parsing loop of ListOfContainers: keep the first field of every line
      whose second field contains one of the target images. */
  method MatchLines(lines: seq<string>, images: seq<string>) returns (containers: seq<string>)
    ensures containers == Matching(lines, images)
  {
    containers := [];
    var i := 0;
    while i < |lines|
      invariant 0 <= i <= |lines|
      invariant containers == Matching(lines[..i], images)
    {
      var line := lines[i];
      ghost var before := containers;
      if line != "" {
        var parts := Fields(line);
        if |parts| >= 2 {
          containers := AppendIfContained(containers, parts[0], parts[1], images);
        }
      }
      assert containers == before + LineContribution(line, images);
      MatchingStep(lines, i, images);
      i := i + 1;
    }
    assert lines[..|lines|] == lines;
  }

  /** `docker ps --format "{{.Names}} {{.Image}}"`: the running containers. */
  const ListQuery := Ps(false, "", NamesImagesFormat)

  function ListOfContainersTrace(m: Machine, w: World, images: seq<string>): (t: Trace<seq<string>>)
    ensures t.world == w
    ensures images == [] ==> t.issued == [] && t.result == []
    ensures images != [] ==> t.issued == [Docker(ListQuery)]
    ensures ListQuery in m.refuses ==> t.result == []
  {
    if images == [] then Trace(w, [], [])
    else
      var r := Answer(m, w, Docker(ListQuery));
      Trace(w, [Docker(ListQuery)], if r.ok then Matching(Split(TrimSpace(r.output), '\n'), images) else [])
  }

  method ListOfContainers(h: Host, images: seq<string>) returns (containers: seq<string>)
    modifies h
    ensures var t := ListOfContainersTrace(h.machine, old(h.State()), images);
      h.State() == t.world && h.log == old(h.log) + t.issued && containers == t.result
  {
    if |images| == 0 {
      return [];
    }
    var r := h.Exec(Docker(ListQuery));
    if !r.ok {
      return [];
    }
    var lines := Split(TrimSpace(r.output), '\n');
    containers := MatchLines(lines, images);
  }

  /** The names of the running containers whose image contains a target, in the runtime's order. */
  function RunningMatches(cs: seq<Container>, images: seq<string>): seq<string> {
    if cs == [] then []
    else
      (if IsUp(cs[0].status) && AnyContained(cs[0].image, images) then [cs[0].name] else [])
      + RunningMatches(cs[1..], images)
  }

  function UpOnly(cs: seq<Container>): seq<Container> {
    Listed(cs, false, "")
  }

  lemma {:induction false} MatchingRows(cs: seq<Container>, images: seq<string>)
    requires forall c :: c in cs ==> IsToken(c.name) && IsToken(c.image) && IsUp(c.status)
    ensures Matching(Rows(cs, NamesImagesFormat), images) == RunningMatches(cs, images)
  {
    if cs != [] {
      var c := cs[0];
      FieldsAfterToken(c.name, ' ', c.image);
      FieldsOfToken(c.image);
      assert c.name + " " + c.image == c.name + [' '] + c.image;
      assert Rows(cs, NamesImagesFormat)[1..] == Rows(cs[1..], NamesImagesFormat);
      MatchingRows(cs[1..], images);
    }
  }

  lemma {:induction false} RunningMatchesUp(cs: seq<Container>, images: seq<string>)
    ensures RunningMatches(UpOnly(cs), images) == RunningMatches(cs, images)
  {
    if cs != [] {
      var head := if IsUp(cs[0].status) then [cs[0]] else [];
      assert UpOnly(cs) == head + UpOnly(cs[1..]);
      RunningMatchesUp(cs[1..], images);
      if head != [] {
        assert (head + UpOnly(cs[1..]))[0] == cs[0];
        assert (head + UpOnly(cs[1..]))[1..] == UpOnly(cs[1..]);
      } else {
        assert head + UpOnly(cs[1..]) == UpOnly(cs[1..]);
      }
    }
  }

  /** A row "name image" of word-like names and images is framed and holds no newline. */
  lemma NamesImagesRowsFramed(cs: seq<Container>)
    requires forall c :: c in cs ==> IsToken(c.name) && IsToken(c.image)
    ensures forall i :: 0 <= i < |cs| ==>
      Framed(Rows(cs, NamesImagesFormat)[i]) && '\n' !in Rows(cs, NamesImagesFormat)[i]
  {
    forall i | 0 <= i < |cs|
      ensures Framed(Rows(cs, NamesImagesFormat)[i]) && '\n' !in Rows(cs, NamesImagesFormat)[i]
    {
      assert cs[i] in cs;
      RowFramed(cs[i].name, cs[i].image);
    }
  }

  lemma RowFramed(name: string, image: string)
    requires IsToken(name) && IsToken(image)
    ensures var row := name + " " + image; Framed(row) && '\n' !in row
  {
    var row := name + " " + image;
    assert row[0] == name[0];
    assert row[|row| - 1] == image[|image| - 1];
    forall k | 0 <= k < |row|
      ensures row[k] != '\n'
    {
      if k < |name| {
        assert row[k] == name[k];
      } else if k > |name| {
        assert row[k] == image[k - |name| - 1];
      }
    }
  }

  /** Trimming and splitting printed rows gives the rows back (none when there are none). */
  lemma ParseOfLines(rows: seq<string>, images: seq<string>)
    requires forall i :: 0 <= i < |rows| ==> Framed(rows[i]) && '\n' !in rows[i]
    ensures Matching(Split(TrimSpace(Lines(rows)), '\n'), images) == Matching(rows, images)
  {
    TrimSpaceOfLines(rows);
    if rows == [] {
      assert Split("", '\n') == [""];
      assert Matching([""], images) == [];
    } else {
      SplitOfJoin(rows, '\n');
    }
  }

  /** Against a well-formed runtime that answers the query, ListOfContainers
      returns exactly the names of the running containers whose image contains one
      of the targets, in the runtime's order, each once. */
  lemma ListOfContainersExact(m: Machine, w: World, images: seq<string>)
    requires WellFormed(w) && ListQuery !in m.refuses && images != []
    ensures ListOfContainersTrace(m, w, images).result == RunningMatches(w.containers, images)
  {
    var up := UpOnly(w.containers);
    var rows := Rows(up, NamesImagesFormat);
    assert Answer(m, w, Docker(ListQuery)) == Reply(true, Lines(rows));
    assert forall c :: c in up ==> IsUp(c.status) && c in w.containers;
    MatchingRows(up, images);
    RunningMatchesUp(w.containers, images);
    NamesImagesRowsFramed(up);
    ParseOfLines(rows, images);
  }

  // ---------------------------------------------------------------------------
  // Volumes

  /** VolumeExists: `docker volume inspect <name>` succeeds. */
  function VolumeExistsTrace(m: Machine, w: World, name: string): (t: Trace<bool>)
    ensures t.world == w && t.issued == [Docker(VolumeInspect(name))]
    ensures t.result <==> VolumeInspect(name) !in m.refuses && name in w.volumes
  {
    Trace(w, [Docker(VolumeInspect(name))], Answer(m, w, Docker(VolumeInspect(name))).ok)
  }

  method VolumeExists(h: Host, name: string) returns (exists_: bool)
    modifies h
    ensures var t := VolumeExistsTrace(h.machine, old(h.State()), name);
      h.State() == t.world && h.log == old(h.log) + t.issued && exists_ == t.result
  {
    var r := h.Exec(Docker(VolumeInspect(name)));
    exists_ := r.ok;
  }

  /** CreateVolume: exactly one `docker volume create <name>`; true when it succeeded. */
  function CreateVolumeTrace(m: Machine, w: World, name: string): (t: Trace<bool>)
    ensures t.issued == [Docker(VolumeCreate(name))]
    ensures t.result <==> VolumeCreate(name) !in m.refuses
    ensures t.world.volumes == if t.result then w.volumes + {name} else w.volumes
    ensures t.world.containers == w.containers && t.world.networks == w.networks && t.world.files == w.files
  {
    var s := Issue(m, w, Docker(VolumeCreate(name)));
    Trace(s.world, s.issued, s.result.ok)
  }

  method CreateVolume(h: Host, name: string) returns (ok: bool)
    modifies h
    ensures var t := CreateVolumeTrace(h.machine, old(h.State()), name);
      h.State() == t.world && h.log == old(h.log) + t.issued && ok == t.result
  {
    var r := h.Exec(Docker(VolumeCreate(name)));
    ok := r.ok;
  }

  /** RemoveVolume's error value: nil, "volume ... does not exist", or "failed to remove volume". */
  datatype RemoveVolumeResult = VolumeRemoved | NoSuchVolume(volume: string) | RemoveFailed

  /** RemoveVolume: a volume the runtime does not report is an error and is not
      touched; otherwise exactly one `docker volume rm -f <name>` follows the check. */
  function RemoveVolumeTrace(m: Machine, w: World, name: string): (t: Trace<RemoveVolumeResult>)
    ensures t.result == NoSuchVolume(name) <==> !VolumeExistsTrace(m, w, name).result
    ensures t.result == NoSuchVolume(name) ==> t.issued == [Docker(VolumeInspect(name))] && t.world == w
    ensures t.result != NoSuchVolume(name) ==>
      t.issued == [Docker(VolumeInspect(name)), Docker(VolumeRm(name))]
    ensures t.result == VolumeRemoved <==> VolumeExistsTrace(m, w, name).result && VolumeRm(name) !in m.refuses
    ensures t.world.volumes == if t.result == VolumeRemoved then w.volumes - {name} else w.volumes
    ensures t.world.containers == w.containers && t.world.networks == w.networks && t.world.files == w.files
  {
    var e := VolumeExistsTrace(m, w, name);
    if !e.result then Trace(e.world, e.issued, NoSuchVolume(name))
    else
      var s := Issue(m, e.world, Docker(VolumeRm(name)));
      Trace(s.world, e.issued + s.issued, if s.result.ok then VolumeRemoved else RemoveFailed)
  }

  method RemoveVolume(h: Host, name: string) returns (result: RemoveVolumeResult)
    modifies h
    ensures var t := RemoveVolumeTrace(h.machine, old(h.State()), name);
      h.State() == t.world && h.log == old(h.log) + t.issued && result == t.result
  {
    var exists_ := VolumeExists(h, name);
    if !exists_ {
      return NoSuchVolume(name);
    }
    var r := h.Exec(Docker(VolumeRm(name)));
    if !r.ok {
      return RemoveFailed;
    }
    return VolumeRemoved;
  }
}
