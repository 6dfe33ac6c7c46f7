# ContainDB: a verified model of how it drives the container runtime

ContainDB is an interactive command-line tool, written in Go and shipped through
an npm launcher. It installs and manages database containers (MongoDB, Redis,
MySQL, PostgreSQL, MariaDB, AxioDB) and two companion tools (phpMyAdmin,
RedisInsight) by running the `docker` client. Most of what it does is decide
which `docker` commands to issue, in which order, and when to stop. This
project models that decision logic in Dafny and proves properties of it.

The runtime is a deterministic stand-in (module `Runtime`):

- A `World` holds the containers (identifier, name, image, state, in listing
  order), the volumes, the networks and the host's files.
- A `Machine` fixes the operating system, the TEMP variable and the set of
  commands the runtime refuses.
- Each `docker` invocation is a `Cmd`. Each thing the tool does is an `Action`:
  a command, a file removal, or a call into a routine of the tool that is not
  modelled.
- `Answer` and `Apply` give the reply and the new state of each action.

A `Host` object holds the mutable state and the log of issued actions. Every
flow of the tool has two parts:

- a pure trace function (`...Trace`), giving the final world, the actions
  issued in order, and the result;
- a `Host` method that performs the flow step by step. Its contract equates
  the new state, the log extension and the result with the trace.

The properties are lemmas over the trace functions. Prompt answers (menu
indices, Yes/No answers, typed lines) are parameters. `os.Exit` is the
`Halted(code)` outcome.

Modules and what they model:

- `Text`: the Go string helpers the tool uses (unicode white space,
  `strings.TrimSpace`, `Fields`, `Split`, `Contains`, `Join`).
- `Runtime`: the runtime stand-in and the `Host` class.
- `Platform`: src/Docker/platform.go.
- `Input`: src/tools/askForInput.go.
- `DockerContainer`: src/Docker/docker_container.go.
- `DockerNetwork`: src/Docker/Docker_Network.go.
- `Rollback`: src/tools/rollback.go.
- `Install`: src/base/StartContainer.go.
- `Tools`: src/tools/Redis_Insight.go and src/tools/PhpMyAdmin.go.
- `Menu`: src/base/BaseCaseHandler.go.
- `Launcher`: npm/InstallController.js.

## Model

| member | source | states |
|---|---|---|
| Text.TrimSpace | src/tools/askForInput.go:14 | the result is empty exactly when the input is all white space; otherwise it starts and ends with a non-space; a framed input is returned unchanged |
| Text.Fields | src/base/StartContainer.go:136 | every field is a non-empty run of non-space characters |
| Text.Split | src/Docker/docker_container.go:55 | at least one piece, none containing the separator |
| Text.SplitOfJoin | src/Docker/docker_container.go:55 | splitting on a separator undoes joining with it, when no part holds the separator |
| Text.FieldsOfJoin | src/tools/rollback.go:25 | splitting newline-joined words into fields gives the words back |
| Text.TrimSpaceOfLines | src/Docker/docker_container.go:39 | trimming newline-terminated rows leaves the rows joined by newlines |
| Platform.GetTempDir | src/Docker/platform.go:26-31 | TEMP on Windows, `/tmp` on every other system |
| Platform.GetOSName | src/Docker/platform.go:49-60 | the three supported systems get a display name different from the raw name; any other name is returned unchanged |
| Platform.GetOSNameInjectiveOnSupported | src/Docker/platform.go:49-60 | different supported systems get different display names |
| Platform.CheckOSSupport | src/Docker/platform.go:63-73 | no error exactly for windows, darwin and linux; otherwise the error names the system |
| Platform.GetShell | src/Docker/platform.go:99-112 | on Windows powershell when available, else cmd; elsewhere bash when available, else sh |
| Platform.BuildDockerRunCommand | src/Docker/platform.go:120-124 | the vector is `run -d` followed by the given arguments, two longer |
| Platform.BuildDockerRunCommandInjective | src/Docker/platform.go:120-124 | different argument lists give different vectors |
| Platform.JoinPath | src/tools/rollback.go:41 | an empty directory is dropped; otherwise the directory, one separator, then the name |
| Input.AskForInput | src/tools/askForInput.go:10-19 | a blank answer gives the default; any other answer gives a framed string no longer than the line; a non-empty default gives a non-empty result |
| Input.AskForInputKeepsTheAnswer | src/tools/askForInput.go:14-18 | a non-blank answer yields the line with only leading and trailing white space cut off |
| Input.AskForInputOfFramed | src/tools/askForInput.go:14-18 | an answer with no surrounding white space is returned as typed |
| Input.CredentialsNeverBlank | src/base/StartContainer.go:104-116 | with the defaults "root" and "password" the user and password are never empty, so the blank-value branches cannot fire |
| DockerContainer.AskYesNo | src/Docker/docker_container.go:12-29 | index 0 is Yes, index 2 ("Exit") ends with status 0, a prompt error ends with status 1, any other index is No |
| DockerContainer.IsContainerRunningTrace | src/Docker/docker_container.go:31-40 | one `docker ps` query filtered by `name=` or `ancestor=`, no state change, and a refused query counts as not running |
| DockerContainer.QueryFilter | src/Docker/docker_container.go:33-37 | the filter matches part of the name when checking by name, and the exact image otherwise |
| DockerContainer.IsContainerRunningExact | src/Docker/docker_container.go:31-40 | the check is true exactly when the query is answered and some listed container matches the filter |
| DockerContainer.IsContainerRunning | src/Docker/docker_container.go:31-40 | the method's effect and result are the trace's |
| DockerContainer.LineContribution | src/Docker/docker_container.go:62-77 | a line adds at most one name, and an empty line adds none |
| DockerContainer.MatchingAppend | src/Docker/docker_container.go:62-78 | lines are matched one at a time, so the result keeps the line order |
| DockerContainer.MatchingBound | src/Docker/docker_container.go:55-79 | at most one name per non-empty line |
| DockerContainer.MatchingSound | src/Docker/docker_container.go:62-77 | every name returned is the first field of a line of at least two fields whose second field contains a target image |
| DockerContainer.AppendIfContained | src/Docker/docker_container.go:71-76 | a line's name is added once exactly when its image contains one of the requested images |
| DockerContainer.MatchLines | src/Docker/docker_container.go:62-78 | the nested loop returns exactly the lines' matches, in order |
| DockerContainer.ListOfContainersTrace | src/Docker/docker_container.go:42-52 | no target images means no query and an empty list; otherwise a single listing query; a refused query gives an empty list |
| DockerContainer.ListOfContainers | src/Docker/docker_container.go:42-80 | the method's effect and result are the trace's |
| DockerContainer.MatchingRows | src/Docker/docker_container.go:62-78 | parsing the printed `name image` rows selects the running containers whose image contains a target |
| DockerContainer.RunningMatchesUp | src/Docker/docker_container.go:48 | listing only running containers loses no match |
| DockerContainer.ParseOfLines | src/Docker/docker_container.go:55 | trimming and splitting the output gives back the printed rows |
| DockerContainer.ListOfContainersExact | src/Docker/docker_container.go:42-80 | an answered listing returns the names of the running containers whose image contains a target, in runtime order |
| DockerContainer.VolumeExistsTrace | src/Docker/docker_container.go:83-87 | one `volume inspect`, true exactly when it is answered and the volume exists |
| DockerContainer.VolumeExists | src/Docker/docker_container.go:83-87 | the method's effect and result are the trace's |
| DockerContainer.CreateVolumeTrace | src/Docker/docker_container.go:90-95 | exactly one `volume create`; the volume is added exactly when that command succeeds |
| DockerContainer.CreateVolume | src/Docker/docker_container.go:90-95 | the method's effect and result are the trace's |
| DockerContainer.RemoveVolumeTrace | src/Docker/docker_container.go:98-112 | an absent volume is an error and gets no `rm`; otherwise exactly one `volume rm -f` follows the check, and the volume goes exactly when that succeeds |
| DockerContainer.RemoveVolume | src/Docker/docker_container.go:98-112 | the method's effect and result are the trace's |
| DockerNetwork.CreateNetworkTrace | src/Docker/Docker_Network.go:8-21 | an answered inspect means no create and success; otherwise exactly one create of the same name, whose success is the result; only the network set changes |
| DockerNetwork.CreateDockerNetworkIfNotExists | src/Docker/Docker_Network.go:8-21 | the method's effect and result are the trace's |
| DockerNetwork.CreateNetworkEnsuresNetwork | src/Docker/Docker_Network.go:10-20 | against a runtime that answers both commands, the network exists afterwards and the call succeeds |
| DockerNetwork.CreateNetworkIdempotent | src/Docker/Docker_Network.go:10-20 | a second call issues only the inspect and changes nothing; two calls create at most once, and never when the network already existed |
| Rollback.RemoveEachIssuesEveryId | src/tools/rollback.go:26-31 | every identifier gets exactly one `rm -f`, in order; a failed removal neither stops the loop nor is retried |
| Rollback.RemoveEachEffect | src/tools/rollback.go:26-31 | the inner loop issues only removals, and only containers disappear |
| Rollback.SweepStatusShape | src/tools/rollback.go:22-32 | each status pass starts with its query; a refused query issues nothing else and changes nothing |
| Rollback.SweepEffect | src/tools/rollback.go:19-33 | the sweep issues only queries and removals, and only containers disappear |
| Rollback.CleanupOver | src/tools/rollback.go:13-47 | exit status 1; the last two actions are the single `image prune -f` and the removal of the Compass package under the temp directory; volumes and networks are kept |
| Rollback.StatusQueries | src/tools/rollback.go:19-22 | one status query per status, in order |
| Rollback.SweepQueryOrder | src/tools/rollback.go:19-33 | the sweep's queries are the status queries in the order of the statuses |
| Rollback.CleanupQueryOrder | src/tools/rollback.go:19-22 | Cleanup queries exited, then dead, then created |
| Rollback.RefusedQuerySkipsOnlyThatStatus | src/tools/rollback.go:23-24 | a refused status query skips that status only; the remaining statuses are still swept |
| Rollback.StatusFilter | src/tools/rollback.go:22 | the `status=` filter selects exactly the containers in that state |
| Rollback.StatusQueryListsIds | src/tools/rollback.go:22-25 | an answered status query lists the identifiers of exactly the containers in that state |
| Rollback.StatusPassRemovesEachListed | src/tools/rollback.go:22-31 | a status pass issues its query, then one `rm -f` per container in that state, in order |
| Rollback.RemoveEachKeeps | src/tools/rollback.go:26-31 | a container whose identifier and name are not listed survives the inner loop |
| Rollback.RemoveEachRemoves | src/tools/rollback.go:26-31 | when the removals are answered, no listed identifier survives |
| Rollback.StatusPassKeepsOthers | src/tools/rollback.go:22-31 | a container in another state survives a status pass |
| Rollback.SweepKeepsOthers | src/tools/rollback.go:19-33 | a container in a state outside the list, a running one say, survives the sweep |
| Rollback.StatusPassClears | src/tools/rollback.go:22-31 | against a runtime that answers queries and removals, no container in that state is left |
| Rollback.SweepClears | src/tools/rollback.go:19-33 | against such a runtime, no container in a swept state is left |
| Rollback.CleanupContainers | src/tools/rollback.go:13-47 | Cleanup keeps every container not exited, dead or created; with an answering runtime it leaves none that is |
| Rollback.RemoveEach | src/tools/rollback.go:26-31 | the inner loop's effect and log are the trace's |
| Rollback.SweepStatus | src/tools/rollback.go:22-32 | one status pass's effect and log are the trace's |
| Rollback.Sweep | src/tools/rollback.go:19-33 | the outer loop's effect and log are the trace's |
| Rollback.Cleanup | src/tools/rollback.go:13-47 | the method's effect, log and exit status are the trace's |
| Install.CatalogDomain | src/base/StartContainer.go:15-34 | image, default port and data directory are defined exactly for the six kinds |
| Install.CatalogWords | src/base/StartContainer.go:15-31 | every catalogue entry is a single non-blank word |
| Install.ImagesDistinct | src/base/StartContainer.go:15-22 | different kinds use different images |
| Install.DerivedNames | src/base/StartContainer.go:77 | the names are `<kind>-container` and `<kind>-data`, and different kinds give different names |
| Install.EnvArgs | src/base/StartContainer.go:101-127 | environment arguments exist exactly for mysql, postgresql and mariadb; postgresql gets the password, then the user |
| Install.RunArgs | src/base/StartContainer.go:131-158 | the vector starts `run -d --network ContainDB-Network` and ends `--name <kind>-container <image>`; it maps a port exactly when asked, container side the kind's port; a non-SQL kind with everything declined gets the bare vector |
| Install.FragmentArgs | src/base/StartContainer.go:135-156 | an empty fragment contributes no arguments |
| Install.RunArgsAsWritten | src/base/StartContainer.go:131-158 | the as-written vector has the same prefix and suffix |
| Install.FieldsOfPair | src/base/StartContainer.go:136 | splitting two words joined by a blank gives both words |
| Install.PortFragmentAgrees | src/base/StartContainer.go:53-57 | a blank-free host port splits into exactly the port arguments |
| Install.RestartFragmentAgrees | src/base/StartContainer.go:59-62 | the restart fragment splits into `--restart unless-stopped` |
| Install.VolumeFragmentAgrees | src/base/StartContainer.go:98 | the volume fragment splits into `-v <kind>-data:<dir>` |
| Install.EnvFragmentAgrees | src/base/StartContainer.go:118-125 | blank-free credentials split into exactly the environment arguments |
| Install.AsWrittenAgrees | src/base/StartContainer.go:131-158 | with blank-free inputs the as-written vector equals the corrected one |
| Install.RunArgsWithOnlyEnv | src/base/StartContainer.go:131-158 | with every option declined, both vectors are prefix, environment, suffix |
| Install.MysqlEnvSplits | src/base/StartContainer.go:120 | a mysql password with a blank becomes two arguments when split |
| Install.AsWrittenSplitsPassword | src/base/StartContainer.go:153-156 | for every password with a blank, the as-written vector differs from the intended one |
| Install.AsWrittenSplitsMyPass | src/base/StartContainer.go:153-156 | the password `my pass` becomes the two arguments `MYSQL_ROOT_PASSWORD=my` and `pass` |
| Install.SpacedPasswordIsAccepted | src/tools/askForInput.go:14-18 | the password prompt accepts `my pass` as typed |
| Install.AskSettings | src/base/StartContainer.go:48-67 | each option is on exactly when its Yes/No answer is Yes; the host port is the trimmed custom port or the default; a halt is status 0 or 1 |
| Install.AskCredentials | src/base/StartContainer.go:101-116 | non-SQL kinds ask nothing; blank answers fall back to root and password; a typed password is trimmed |
| Install.CredentialsAlwaysReturn | src/base/StartContainer.go:104-116 | the credential step always returns, with a non-empty user and password for the SQL kinds |
| Install.VolumePhase | src/base/StartContainer.go:77-97 | the method's effect and result are the trace's |
| Install.VolumePhaseCases | src/base/StartContainer.go:77-97 | an absent volume gets one create; "Create fresh" gets remove then create; any other choice gets neither; only "Exit" stops; no run is issued |
| Install.Launch | src/base/StartContainer.go:158-170 | the method's effect and result are the trace's |
| Install.Setup | src/base/StartContainer.go:48-170 | the method's effect and result are the trace's |
| Install.StartContainer | src/base/StartContainer.go:14-171 | the method's effect and result are the trace's |
| Install.RunsAppend | src/base/StartContainer.go:161-164 | the run count of a concatenation is the sum of the counts |
| Install.StartShortCircuit | src/base/StartContainer.go:36-39 | when the image already runs, only the check is issued, nothing changes, and the flow returns |
| Install.RunningImageShortCircuits | src/base/StartContainer.go:36-39 | a running container of the kind's image means no run command at all |
| Install.StartUnfolds | src/base/StartContainer.go:36-46 | otherwise the flow is the check, the pull, then the setup |
| Install.StartAfterPull | src/base/StartContainer.go:41-46 | a pull changes nothing, so setup runs against the original state after the check and the pull |
| Install.StartChecksFirst | src/base/StartContainer.go:36 | the first action is always the running check for the kind's image |
| Install.SetupHaltsOnPrompt | src/base/StartContainer.go:48-67 | an ending Yes/No prompt stops before any volume or run command |
| Install.StartHaltsOnPrompt | src/base/StartContainer.go:36-67 | then only the check and the pull have been issued |
| Install.StartExitKeepsVolume | src/base/StartContainer.go:79-94 | "Exit" on an existing volume returns after the volume check, with no run and nothing changed |
| Install.SetupUnfolds | src/base/StartContainer.go:65-170 | setup is the volume step followed by the launch |
| Install.LaunchCases | src/base/StartContainer.go:158-170 | exactly one run; the tool installer follows exactly when the run succeeds |
| Install.SetupRunsOnce | src/base/StartContainer.go:65-170 | when setup gets past the prompts, exactly one run is issued, after the volume commands |
| Install.SetupRunsSourceVector | src/base/StartContainer.go:131-170 | when no answer holds white space, the single run the flow issues is exactly the source's Fields-split vector |
| Install.StartRunsOnce | src/base/StartContainer.go:14-171 | in that case the whole flow issues exactly one run, after the check and the pull |
| Install.OpeningRunsNothing | src/base/StartContainer.go:36-46 | the check and the pull issue no run |
| Install.PortMappingSides | src/base/StartContainer.go:50-57 | container side of the mapping is the kind's port; host side is the typed port, else the default |
| Install.RedisAllDeclined | src/base/StartContainer.go:132-158 | redis with every option declined runs exactly `run -d --network ContainDB-Network --name redis-container redis` |
| Tools.ToolArgs | src/tools/Redis_Insight.go:64-71 | fixed prefix up to `--name <tool>`, `-p <port>:<container port> <image>` at the end, and `-e PMA_HOST=<selected>` for phpMyAdmin |
| Tools.Replace | src/tools/Redis_Insight.go:15-30 | the method's effect and result are the trace's |
| Tools.LaunchTool | src/tools/Redis_Insight.go:58-82 | the method's effect and result are the trace's |
| Tools.Link | src/tools/Redis_Insight.go:34-82 | the method's effect and result are the trace's |
| Tools.StartTool | src/tools/PhpMyAdmin.go:14-81 | the method's effect and result are the trace's |
| Tools.StartToolUnfolds | src/tools/PhpMyAdmin.go:15-37 | past the replace step, the flow is the gate's actions followed by the link step |
| Tools.DeclineAborts | src/tools/Redis_Insight.go:15-30 | a running tool whose replacement is declined: only the check, and nothing changes |
| Tools.ReplaceRemovesFirst | src/tools/PhpMyAdmin.go:18-25 | accepting issues `rm -f <tool>` right after the check; the flow goes on exactly when the removal succeeds, and a refused removal changes nothing |
| Tools.RefusedReplaceStops | src/tools/PhpMyAdmin.go:20-24 | a refused removal ends the whole flow with the replace-failed status after two actions, before any listing, pull or run |
| Tools.NoTargetReturns | src/tools/Redis_Insight.go:34-38 | no candidate database: only the listing, then return |
| Tools.NoRunningTarget | src/tools/PhpMyAdmin.go:33-37 | with no running container whose image contains a target, the candidate list is empty |
| Tools.RunningMatchesNone | src/tools/PhpMyAdmin.go:33-37 | no running container with a target image gives no match |
| Tools.ExitReturns | src/tools/PhpMyAdmin.go:49-52 | selecting "Exit" returns after the listing, with no pull or run |
| Tools.SelectFailureRollsBack | src/tools/Redis_Insight.go:46-49 | a failed selection runs Cleanup after the listing and ends with status 1 |
| Tools.LinkUnfolds | src/tools/Redis_Insight.go:40-82 | after a real selection, the flow is the listing followed by the launch |
| Tools.LinkLaunches | src/tools/PhpMyAdmin.go:54-80 | after a real selection, exactly listing, pull, run; started exactly when the run is answered, whatever the pull did; the target is a listed candidate |
| Tools.RedisInsightArgs | src/tools/Redis_Insight.go:64-71 | the RedisInsight vector, literally |
| Tools.PhpMyAdminArgs | src/tools/PhpMyAdmin.go:63-71 | the phpMyAdmin vector, literally, with PMA_HOST naming the selection |
| Tools.DefaultToolPort | src/tools/PhpMyAdmin.go:54 | a blank port answer gives 8001 for RedisInsight and 8080 for phpMyAdmin |
| Menu.Finished | src/base/BaseCaseHandler.go:28-41 | a sub-flow's halt is passed on with its status, and a return becomes Done |
| Menu.RouteOf | src/base/BaseCaseHandler.go:29-41 | phpmyadmin, MongoDB Compass, PgAdmin and Redis Insight go to their starters; every other name goes to StartContainer with that name |
| Menu.InstallBranch | src/base/BaseCaseHandler.go:28-41 | the method's effect and result are the trace's |
| Menu.FirstTool | src/base/BaseCaseHandler.go:47-58 | the position of the first tool entry, with no tool entry before it |
| Menu.FilterTools | src/base/BaseCaseHandler.go:46-58 | the in-place loop leaves the names less their first tool entry |
| Menu.FilterDropsAtMostOne | src/base/BaseCaseHandler.go:46-58 | at most one entry goes, and it is the first of phpmyadmin, pgadmin, redisinsight; the rest keep their order; no new names appear |
| Menu.FilterKeepsSecondTool | src/base/BaseCaseHandler.go:46-58 | a second tool entry stays in the list |
| Menu.ListBranch | src/base/BaseCaseHandler.go:43-70 | the method's effect and result are the trace's |
| Menu.RemoveTarget | src/base/BaseCaseHandler.go:91-192 | the removal for the picked name: RemoveDatabase (line 91), RemoveImage (line 140) or the volume removal (line 188); the method's effect and result are the trace's, and an error is only reported |
| Menu.Guard | src/base/BaseCaseHandler.go:122-140 | the method's effect and result are the trace's |
| Menu.RemoveBranch | src/base/BaseCaseHandler.go:72-192 | the method's effect and result are the trace's |
| Menu.OtherBranch | src/base/BaseCaseHandler.go:193-248 | export calls the compose writer and fails when it returns no path; import stops when the path prompt fails, otherwise calls the importer; update is not modelled; exit says goodbye; the method's effect and result are the trace's |
| Menu.BaseCaseHandler | src/base/BaseCaseHandler.go:14-249 | the method's effect and result are the trace's |
| Menu.FailedPromptRollsBack | src/base/BaseCaseHandler.go:20-24 | a failed top-level prompt runs Cleanup and nothing else, ending with status 1 |
| Menu.InstallRoutes | src/base/BaseCaseHandler.go:28-41 | Install Database hands over to exactly the chosen starter's flow |
| Menu.InstallChecksFirst | src/base/BaseCaseHandler.go:39-40 | a database name reaches StartContainer, which first checks whether its image runs |
| Menu.ListShowsFiltered | src/base/BaseCaseHandler.go:43-70 | the list shown is the listing less its first tool entry, and nothing changes |
| Menu.PickedIsListed | src/base/BaseCaseHandler.go:85-90 | a pick that is not "Exit" names a listed item |
| Menu.GuardStops | src/base/BaseCaseHandler.go:122-139 | a failed check, an owner, or any answer but Yes: only the check is issued |
| Menu.RemovalIsGuarded | src/base/BaseCaseHandler.go:72-192 | a removal is issued only if the listing worked and was non-empty, a listed item was picked and, for images and volumes, it is not in use and the user said Yes; then the branch is listing, check, removal of that item |
| Menu.InUseRefuses | src/base/BaseCaseHandler.go:122-132 | an image or volume in use is never removed, and the owner is reported |
| Menu.ClearedRemoves | src/base/BaseCaseHandler.go:94-188 | past the guards, RemoveDatabase or RemoveImage is called once on the pick, and a volume goes through RemoveVolume |
| Menu.RemovalEntries | src/base/BaseCaseHandler.go:72-192 | the three removal entries run the guarded branch of their kind |
| Menu.ExitDoesNothing | src/base/BaseCaseHandler.go:246-248 | Exit issues nothing and changes nothing |
| Launcher.BinaryFor | npm/InstallController.js:23-28 | a binary exactly when both keys are in the table, and then the table's entry |
| Launcher.ChildEnv | npm/InstallController.js:32 | the parent's variables with only CONTAINDB_INSTALL_SOURCE set to npm |
| Launcher.ForwardedArgs | npm/InstallController.js:34 | the arguments after the first two, none when there are at most two |
| Launcher.RunLauncher | npm/InstallController.js:23-38 | an unsupported platform or architecture spawns nothing and exits with 1; a supported pair spawns its binary under `bin` with the arguments after the script and the marked environment, and exits with the child's code, 0 when the child reports none |
| Launcher.BinaryPath | npm/InstallController.js:29 | the package directory, `bin`, the binary name, joined with the platform's separator |
| Launcher.SupportedPairs | npm/InstallController.js:10-21 | exactly linux/x64, darwin/x64, darwin/arm64 and win32/x64 are supported, each with its binary |
| Launcher.UnsupportedExits | npm/InstallController.js:23-26 | any other pair spawns nothing and exits with status 1 |
| Launcher.SupportedSpawns | npm/InstallController.js:28-38 | a supported pair spawns its binary with the forwarded arguments and the marked environment; the exit status is the child's, 0 for a null code |
| Launcher.ChildEnvIdempotent | npm/InstallController.js:32 | marking the environment twice is marking it once |

## Left out

- Terminal I/O: printing, the banner, promptui rendering and reading stdin. Prompt answers are parameters.
- Pick index out of range: in the select menus an index beyond the items shown reads as a failed prompt, since promptui cannot return one. In AskYesNo any index other than 0 and 2 reads as No, as the source's `index == 0` test gives.
- The `docker` client itself: Docker's behaviour is the deterministic stand-in in `Runtime`. Command output other than `docker ps` rows, and any error text, are not modelled.
- Routines called but not shown: `ListRunningDatabases`, `ListDatabaseImages`, `ListContainDBVolumes`, `IsImageInUse`, `IsVolumeInUse`, `RemoveImage`, `RemoveDatabase`, `StartPgAdmin`, `DownloadMongoDBCompass`, `MakeDockerComposeWithAllServices`, `ImportDockerServices` and `AfterContainerToolInstaller`. Their code is not available, so they are logged `Call` actions, their results are parameters, and their effects on the runtime are not modelled.
- `SelectDatabase` and `SelectFilePath`: prompts whose code is not available. They are modelled only as answers (`database`, `importPath` and `pathFailed`) and issue no action.
- Consistency of those parameters with the world: not modelled either.
- The "Update ContainDB" menu branch: a `curl | sudo bash` pipeline outside the tool's logic. It returns `NotModelled` and issues nothing.
- Compose export and import: modelled only as calls. No round trip can be stated without their code.
- src/Docker/SysRequirement.go: floating-point RAM and disk probing.
- src/Docker/docker_installation.go and src/base/DockerStarterPack.go: fixed shell scripts.
- src/tools/MongoDB_Tools.go: HTTP download and package install.
- src/base/Banner.go and src/Core/main.go: flag handling, privilege checks, and the signal goroutine (concurrency). Interruption is modelled as a failed prompt leading to `Cleanup`.
- Platform.GetShell: takes the availability of each shell as booleans instead of searching PATH.
- Platform.JoinPath: joins with exactly one separator and does not clean the path as filepath.Join does. A TEMP directory with a trailing separator, or with `/` on Windows, gives a different file name to remove than the source's.
- Install.Launch: issues `Run(RunArgs(...))`, the corrected vector that keeps each value one argument, where StartContainer.go:136-156 passes the Fields-split fragments. So a host port, user name or password with an inner blank is one argument here and several in the source. `Install.SetupRunsSourceVector` proves the two coincide when no answer holds white space.
- Install.Setup: inherits the corrected run vector of Install.Launch.
- Install.StartContainer: inherits the corrected run vector of Install.Launch.
- Install.LaunchCases: inherits the corrected run vector of Install.Launch.
- Install.SetupRunsOnce: inherits the corrected run vector of Install.Launch.
- Menu.InstallBranch: inherits the corrected run vector of Install.Launch.
- Menu.BaseCaseHandler: inherits the corrected run vector of Install.Launch.
- Launcher.BinaryPath: takes a package directory with no trailing separator, so it does not model path.join's normalisation.
- Launcher.RunLauncher: takes the child's exit code as a parameter; the spawn, stdio inheritance and the console message are I/O.
- JavaScript object-prototype keys in the launcher's table lookup: not modelled, since os.platform() and os.arch() only return the documented names.
- Install.VolumePhase: takes the selected item's text as `choice`, so a failed volume prompt is the empty string, as in the source.
- Install.AskSettings: returns the settings. The halts of the three Yes/No prompts are modelled, but not their order relative to the printed messages.
- DockerContainer.ListOfContainers: the image set is kept as the given sequence. Go's map iteration order does not matter, because the inner loop stops at the first match.

## Findings

| source | as written | input that shows it | evidently intended | confidence | as-written member | corrected member |
|---|---|---|---|---|---|---|
| src/base/StartContainer.go:135-156 | every fragment, including the user's host port, user name and password, is split with `strings.Fields` before being passed to `docker` | mysql with password `my pass` (which AskForInput accepts) gives the arguments `MYSQL_ROOT_PASSWORD=my` and `pass` | each value stays one argument: `MYSQL_ROOT_PASSWORD=my pass` | not executed; the split is certain, while the intent is read from the code building each fragment as one flag-value pair | Install.AsWrittenSplitsPassword | Install.RunArgs |

`Install.RunArgsAsWritten` models the as-written assembly. `Install.AsWrittenSplitsMyPass` gives the concrete input. `Install.AsWrittenAgrees` proves the two builders agree whenever the inputs contain no white space. The install flow uses `Install.RunArgs`, and `Install.SetupRunsSourceVector` ties its run to the as-written vector for blank-free answers.
