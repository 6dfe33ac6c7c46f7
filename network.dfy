/** src/Docker/Docker_Network.go: the shared network every container of the tool joins. */
module DockerNetwork {
  import opened Runtime

  /** The one network name the tool uses, for the check, the creation and every `docker run`. */
  const ManagedNetwork := "ContainDB-Network"

  /** CreateDockerNetworkIfNotExists: `docker network inspect`; when that fails,
      exactly one `docker network create`, whose success is the result. */
  function CreateNetworkTrace(m: Machine, w: World): (t: Trace<bool>)
    ensures var inspected := Answer(m, w, Docker(NetworkInspect(ManagedNetwork))).ok;
      && (inspected ==> t.issued == [Docker(NetworkInspect(ManagedNetwork))] && t.result && t.world == w)
      && (!inspected ==>
            t.issued == [Docker(NetworkInspect(ManagedNetwork)), Docker(NetworkCreate(ManagedNetwork))]
            && t.result == Answer(m, w, Docker(NetworkCreate(ManagedNetwork))).ok)
    ensures t.world.containers == w.containers && t.world.volumes == w.volumes && t.world.files == w.files
    ensures t.world.networks == w.networks + (if t.result then {ManagedNetwork} else {})
  {
    var check := Issue(m, w, Docker(NetworkInspect(ManagedNetwork)));
    if check.result.ok then Trace(check.world, check.issued, true)
    else
      var create := Issue(m, check.world, Docker(NetworkCreate(ManagedNetwork)));
      Trace(create.world, check.issued + create.issued, create.result.ok)
  }

  method CreateDockerNetworkIfNotExists(h: Host) returns (ok: bool)
    modifies h
    ensures var t := CreateNetworkTrace(h.machine, old(h.State()));
      h.State() == t.world && h.log == old(h.log) + t.issued && ok == t.result
  {
    var check := h.Exec(Docker(NetworkInspect(ManagedNetwork)));
    if check.ok {
      return true;
    }
    var create := h.Exec(Docker(NetworkCreate(ManagedNetwork)));
    ok := create.ok;
  }

  /** The number of `docker network create` commands among the actions. */
  function Creates(actions: seq<Action>): nat {
    if actions == [] then 0
    else (if actions[0].Docker? && actions[0].cmd.NetworkCreate? then 1 else 0) + Creates(actions[1..])
  }

  /** Against a runtime that answers both commands, the call leaves the network in
      place and says so, whether or not it had to create it. */
  lemma CreateNetworkEnsuresNetwork(m: Machine, w: World)
    requires NetworkInspect(ManagedNetwork) !in m.refuses && NetworkCreate(ManagedNetwork) !in m.refuses
    ensures var t := CreateNetworkTrace(m, w);
      t.result && t.world.networks == w.networks + {ManagedNetwork}
  {
  }

  /** Idempotence: against such a runtime, two calls in a row issue at most one
      create between them, and the second issues only the check. */
  lemma CreateNetworkIdempotent(m: Machine, w: World)
    requires NetworkInspect(ManagedNetwork) !in m.refuses && NetworkCreate(ManagedNetwork) !in m.refuses
    ensures var first := CreateNetworkTrace(m, w);
      var second := CreateNetworkTrace(m, first.world);
      && second.issued == [Docker(NetworkInspect(ManagedNetwork))]
      && second.world == first.world
      && Creates(first.issued + second.issued) <= 1
      && (ManagedNetwork in w.networks ==> Creates(first.issued + second.issued) == 0)
  {
    var first := CreateNetworkTrace(m, w);
    CreateNetworkEnsuresNetwork(m, w);
    var second := CreateNetworkTrace(m, first.world);
    var both := first.issued + second.issued;
    if ManagedNetwork in w.networks {
      assert both == [Docker(NetworkInspect(ManagedNetwork)), Docker(NetworkInspect(ManagedNetwork))];
      assert both[1..] == [Docker(NetworkInspect(ManagedNetwork))];
      assert both[1..][1..] == [];
      assert Creates(both[1..]) == 0;
    } else {
      assert both == [Docker(NetworkInspect(ManagedNetwork)), Docker(NetworkCreate(ManagedNetwork)),
        Docker(NetworkInspect(ManagedNetwork))];
      assert both[1..][1..] == [Docker(NetworkInspect(ManagedNetwork))];
      assert both[1..][1..][1..] == [];
      assert Creates(both[1..][1..]) == 0;
      assert Creates(both[1..]) == 1;
    }
  }
}
