# provider-ansible core, modelled in Dafny

This project models the core of provider-ansible, the Crossplane provider that runs Ansible content through ansible-runner. It covers five parts:

- **`ShardUtil`** (`shardutil.dfy`). A controller instance watches only the resources whose name falls in its shard. The shard is the 32-bit FNV-1a hash of the name modulo the number of shards. The model proves that every name has exactly one shard, and that an event is judged by the name of its object (the new object for an update).
- **`RunnerUtil`** (`runnerutil.dfy`). The `-v…v` verbosity flag passed to ansible-runner.
- **`JobEvent`, `AnsibleEvents`, `EventScenarios`** (`job_event.dfy`, `ansible_events.dfy`, `event_scenarios.dfy`). After a failed run, the provider reads ansible-runner's job events and builds a failure reason:
  - one line per `runner_on_failed` or `runner_on_unreachable` event, unless that event has `ignore_errors` set;
  - the lines are joined with `"; "`;
  - an event whose data does not decode aborts with an error;
  - unreadable and unparseable event files are skipped.

  The test cases of `extractFailureReason` are proved as lemmas.
- **`Ansible`** (`ansible.dfy`). The runner:
  - the run policies and their annotation;
  - the ansible-runner and ansible-galaxy command lines and their environments (the last occurrence of a variable wins);
  - the role-path lookup order;
  - `Init`, with its validation, env directory and initial `env/extravars`;
  - the `Runner` object and its `Run`, `WriteExtraVar` and `EnableCheckMode`;
  - how a failed run keeps the process error and annotates it with the failure reason;
  - `Diff` over the per-host `changed` counts.
- **`AnsibleRun`** (`ansible_run.dfy`). The managed-resource controller:
  - `Observe` under each run policy, and `handleLastApplied` with its last-applied snapshot;
  - `Create`, `Update` and `Delete`, and the order of runner calls each makes;
  - `addBehaviorVars`;
  - the inventory and requirements decisions of `Connect`.

  The Kubernetes store and the ansible runner are objects whose answers are fixed when they are built. Every call made on the runner is logged.

Common modules:

- `Outcomes`: `Option`, `Result`, and Go's error values (`errors.New`, `fmt.Errorf` with `%w`, and `Is`).
- `Json`: a decoded JSON value.
- `Text`: `strings.Join`, `strings.Repeat`, `strconv.Itoa`, `%q` quoting and path joining.

Several inputs become parameters:

- the process environment, the home directory and which directories exist;
- the outcome of the processes the provider starts;
- the job-event directory listing;
- the generated run id;
- the order in which Go ranges over a map.

## Model

| member | source | states |
|---|---|---|
| ShardUtil.FeedAppend | pkg/shardutil/shardutil.go:40-44 | hashing a concatenation continues from the state the first part leaves (FNV-1a is a left fold of its round) |
| ShardUtil.HashSnoc | pkg/shardutil/shardutil.go:40-44 | one more byte is one more xor-then-multiply round |
| ShardUtil.HashVectors | pkg/shardutil/shardutil.go:40-44 | the empty name hashes to the offset basis 2166136261 and "a" to 0xe40c292c, the published FNV-1a vectors |
| ShardUtil.HashLoop | pkg/shardutil/shardutil.go:40-44 | the byte-by-byte loop computes the 32-bit FNV-1a hash of the name |
| ShardUtil.ShardOf | pkg/shardutil/shardutil.go:33-34 | the shard of a name is below the number of shards |
| ShardUtil.IsResourceForShardHelper | pkg/shardutil/shardutil.go:30-37 | a resource is accepted iff its name's shard is the target shard, so a target at or beyond the count accepts nothing |
| ShardUtil.ExactlyOneShard | pkg/shardutil/shardutil.go:30-37 | for every name some shard accepts it and no two shards do |
| ShardUtil.OutOfRangeShardAcceptsNothing | pkg/shardutil/shardutil.go:30-37 | a target shard at or above the shard count accepts no resource |
| ShardUtil.Subject | pkg/shardutil/shardutil.go:12-27 | update events are judged by the new object, create, delete and generic events by their object |
| ShardUtil.IsResourceForShard | pkg/shardutil/shardutil.go:12-27 | the predicate accepts an event only for a target below the shard count |
| ShardUtil.OnlyNameMatters | pkg/shardutil/shardutil.go:12-37 | two events whose objects have the same name get the same verdict, whatever their kind |
| ShardUtil.EveryEventHasOneShard | pkg/shardutil/shardutil.go:12-37 | each event is accepted by its name's shard and by no other |
| RunnerUtil.AnsibleVerbosityString | pkg/runnerutil/runnerutil.go:43-51 | no flag for verbosity 0 or below; otherwise "-" followed by exactly that many "v" |
| RunnerUtil.VerbosityPrefix | pkg/runnerutil/runnerutil.go:43-51 | a lower verbosity's flag is a prefix of a higher one's |
| RunnerUtil.VerbosityInjective | pkg/runnerutil/runnerutil.go:43-51 | distinct positive verbosities give distinct flags |
| AnsibleEvents.StringField | internal/ansible/ansible.go:476-483 | a missing or null string field decodes as "", a string as itself, any other kind is a type error |
| AnsibleEvents.BoolField | internal/ansible/ansible.go:476-483 | a missing or null bool field decodes as false, a bool as its value, any other kind is a type error |
| AnsibleEvents.ResultField | internal/ansible/jobEvent.go:26-28 | a missing `res` decodes as an empty message; a decoded message is `res.msg` when `res` is an object with a string `msg`, "" otherwise; a wrongly typed `msg` is reported against the `runnerResult` struct |
| AnsibleEvents.DecodeRunnerEventData | internal/ansible/jobEvent.go:18-24 | a decoded event carries the `play`, `task` and `host` strings ("" when missing or null), the message of `res.msg` ("" unless `res` is an object with a string `msg`), and has `ignore_errors` set iff the data holds `true` |
| AnsibleEvents.MissingIgnoreErrorsIsNotIgnored | internal/ansible/jobEvent.go:18-24 | an event without `ignore_errors` is never ignored |
| AnsibleEvents.FailureLine | internal/ansible/ansible.go:494-499 | the line holds the reason, the three quoted fields with their separators and the message, so it is at least 31 characters longer than reason and message together |
| AnsibleEvents.FailureLineFrame | internal/ansible/ansible.go:494-499 | a failure line starts with the reason and " on play " and ends with the event's message |
| AnsibleEvents.RunnerEventMessage | internal/ansible/ansible.go:485-501 | fails iff the event data does not decode, with the event's uuid in the error; "" iff errors are ignored; otherwise the failure line |
| AnsibleEvents.Contribution | internal/ansible/ansible.go:426-445 | only failed and unreachable events contribute, and at most one line each |
| AnsibleEvents.Combine | internal/ansible/ansible.go:426-445 | the first error wins; two successes concatenate their lines |
| AnsibleEvents.CombineAssociative | internal/ansible/ansible.go:426-445 | combining contributions is associative, so the scan may be split anywhere |
| AnsibleEvents.CombineNothing | internal/ansible/ansible.go:426-445 | an event that contributes nothing leaves the result unchanged |
| AnsibleEvents.CollectSnoc | internal/ansible/ansible.go:426-445 | the scan over events is a left fold of their contributions |
| AnsibleEvents.CollectAbortsAt | internal/ansible/ansible.go:426-445 | the first failing contribution is the result of the whole scan |
| AnsibleEvents.Collect | internal/ansible/ansible.go:426-445 | the scan succeeds iff every contribution does, and an error is one of the contributions |
| AnsibleEvents.Messages | internal/ansible/ansible.go:426-445 | the messages fail iff some event's contribution fails, and the error is that event's |
| AnsibleEvents.Diagnose | internal/ansible/ansible.go:426-447 | fails exactly when the messages fail, with their error; no lines give "", one line gives that line |
| AnsibleEvents.MessagesSnoc | internal/ansible/ansible.go:426-445 | appending an event combines its contribution onto the lines so far |
| AnsibleEvents.FailureEvents | internal/ansible/ansible.go:428-444 | an event is kept iff it is in the input and failure-tagged, no more events than the input |
| AnsibleEvents.FailureEventsAppend | internal/ansible/ansible.go:428-444 | the filter keeps the order: the failure events of a concatenation are those of each part, in order |
| AnsibleEvents.OnlyFailureEventsMatter | internal/ansible/ansible.go:428-444 | dropping every event that is not failed or unreachable changes nothing |
| AnsibleEvents.MessagesAppend | internal/ansible/ansible.go:426-445 | the lines of two event lists are the combination of the lines of each |
| AnsibleEvents.IgnoredEventContributesNothing | internal/ansible/ansible.go:490-492 | an event with `ignore_errors` adds no line |
| AnsibleEvents.NoFailureEventsNoReason | internal/ansible/ansible.go:426-447 | without failed or unreachable events the reason is "" |
| AnsibleEvents.DiagnosisFailsIff | internal/ansible/ansible.go:426-445 | the diagnosis fails iff some failure-tagged event has undecodable data |
| AnsibleEvents.OnlyTypeAndDataMatter | internal/ansible/ansible.go:426-445 | the uuid and stdout of events do not change a successful diagnosis |
| AnsibleEvents.ParsedEvents | internal/ansible/ansible.go:457-473 | unreadable and unparseable files are skipped: an event is kept iff some file parsed to it, at most one per file |
| AnsibleEvents.ParsedEventsAppend | internal/ansible/ansible.go:457-473 | parsing two listings is parsing each and concatenating |
| AnsibleEvents.ParseEvents | internal/ansible/ansible.go:451-474 | the loop over the directory listing keeps the parsed events in order |
| AnsibleEvents.ReadDirError | internal/ansible/ansible.go:421-423 | the directory error is kept (matched by `errors.Is`) under "parsing job events: reading job events directory "<dir>"" |
| AnsibleEvents.FailureReason | internal/ansible/ansible.go:419-454 | an unreadable directory fails with an error that still matches the read error |
| AnsibleEvents.ExtractFailureReason | internal/ansible/ansible.go:419-449 | the reason is the failure lines joined by "; ", or the directory or decode error |
| AnsibleEvents.DiagnosisAbortsAt | internal/ansible/ansible.go:431-443 | the first failure event whose data does not decode aborts the scan with its error |
| EventScenarios.NoFailureScenarios | internal/ansible/ansible_test.go:284-287 | no events, or only a playbook start, give the reason "" |
| EventScenarios.DecodedContribution | internal/ansible/ansible.go:430-443 | a decodable failed event contributes "Failed …" and an unreachable one "Unreachable …" |
| EventScenarios.LineWithQuotes | internal/ansible/ansible.go:494-499 | the failure line is the reason, the three quoted fields and the message in that layout |
| EventScenarios.FailedLineText | internal/ansible/ansible_test.go:288-291 | the failure line of the test's failed event data is the expected text |
| EventScenarios.UnreachableLineText | internal/ansible/ansible_test.go:292-295 | the failure line of the test's unreachable event data is the expected text |
| EventScenarios.FailedContribution | internal/ansible/ansible_test.go:254-265 | the test's failed event contributes the expected failed line |
| EventScenarios.UnreachableContribution | internal/ansible/ansible_test.go:267-278 | the test's unreachable event contributes the expected unreachable line |
| EventScenarios.QuietThenOneLine | internal/ansible/ansible.go:426-445 | an event that is not a failure followed by one contributing a single line gives exactly that line |
| EventScenarios.FailedMessages | internal/ansible/ansible_test.go:288-291 | a playbook start then the failed event give the single expected line |
| EventScenarios.UnreachableMessages | internal/ansible/ansible_test.go:292-295 | a playbook start then the unreachable event give the single expected line |
| EventScenarios.FailedScenario | internal/ansible/ansible_test.go:288-291 | a playbook start then a failed event give `Failed on play "test", task "file", host "testhost": fake error` |
| EventScenarios.UnreachableScenario | internal/ansible/ansible_test.go:292-295 | a playbook start then an unreachable event give the expected unreachable reason |
| EventScenarios.IgnoredScenario | internal/ansible/ansible.go:490-492 | the failed event with `ignore_errors` set gives the reason "" |
| Ansible.NewRunPolicy | internal/ansible/ansible.go:93-106 | only "", ObserveAndDelete and CheckWhenObserve are accepted, "" meaning ObserveAndDelete; any other name fails with `run policy "<name>" not supported` |
| Ansible.RunPolicyRoundTrip | internal/ansible/ansible.go:93-106 | parsing a policy's name gives the policy back |
| Ansible.PolicyAnnotation | internal/ansible/ansible.go:109-112 | "" when the run-policy annotation is absent, otherwise the annotation's value |
| Ansible.Getenv | internal/ansible/ansible.go:183-188 | a variable is set iff some entry has its key, and its value is that of one such entry |
| Ansible.GetenvAppend | internal/ansible/ansible.go:183-188 | in an appended environment the later part overrides the earlier |
| Ansible.VarsSlice | internal/ansible/ansible.go:181-185 | one entry per behaviour var; whatever order the map is listed in, looking a key up gives the map's value, and a key not in the map is unset |
| Ansible.BuildCommand | internal/ansible/ansible.go:167-222 | the runner binary; the playbook or role arguments followed by the two check-mode options only in check mode; `ANSIBLE_INVENTORY` set to its override |
| Ansible.CommandArgs | internal/ansible/ansible.go:167-222 | the playbook form is `run <path> -p <playbook>`, the role form `run <wd> --role <name> --roles-path <path> --project-dir <wd>` |
| Ansible.CheckModeOnlyAddsOptions | internal/ansible/ansible.go:174-176 | check mode only appends `--cmdline \--check` and changes neither binary nor environment |
| Ansible.CommandEnvironment | internal/ansible/ansible.go:183-219 | `ANSIBLE_INVENTORY` is the override (`hosts`, or `<wd>/hosts` for a role), a behaviour var beats the process environment, every other variable is inherited |
| Ansible.RolePath | internal/ansible/ansible.go:504-536 | only a failed user lookup is an error, and it is returned as is; the path is the behaviour var, the parameter, the environment value, an existing default directory or "" |
| Ansible.FirstExisting | internal/ansible/ansible.go:527-533 | the first existing default directory, and none iff none exists |
| Ansible.RolePathPriority | internal/ansible/ansible.go:504-536 | behaviour var, then parameter, then `ANSIBLE_ROLE_PATH`, then the defaults; only the user lookup can fail |
| Ansible.RolePathDefaults | internal/ansible/ansible.go:522-534 | with nothing configured, the first existing of `~/.ansible/roles`, `/usr/share/ansible/roles`, `/etc/ansible/roles`, or "" |
| Ansible.SelectRolePath | internal/ansible/ansible.go:504-536 | the loop with its early exit computes the role-path lookup |
| Ansible.GalaxyCommand | internal/ansible/ansible.go:225-257 | only a role install can fail (on the role path); the galaxy binary with `--verbose` last and the process and behaviour-var environment |
| Ansible.GalaxyInstall | internal/ansible/ansible.go:225-264 | a role-path error is returned as is; a failed command is wrapped with its output and still matches the original error |
| Ansible.FileSystem.Read | internal/ansible/ansible.go:551-557 | a path not present reads as absent |
| Ansible.InitialExtraVars | internal/ansible/ansible.go:305-314 | null vars write an empty file (the marshalled `null` is replaced by nothing), any other value exactly that document |
| Ansible.DecodeExtraVars | internal/ansible/ansible.go:551-561 | a missing or empty file is no vars; read and decode errors are returned; only an object decodes |
| Ansible.MergeExtraVar | internal/ansible/ansible.go:548-562 | the merge fails exactly when decoding the stored file fails, with that error |
| Ansible.MergeKeepsOtherVars | internal/ansible/ansible.go:548-562 | the merge sets `ansible_provider_meta` and keeps every other stored variable |
| Ansible.MissingFileIsEmpty | internal/ansible/ansible.go:551-562 | a missing file behaves like an empty one |
| Ansible.MergeIdempotent | internal/ansible/ansible.go:548-571 | writing the same extra var twice gives the same content |
| Ansible.HasChanges | internal/ansible/ansible.go:575-585 | some host's changed count is not zero; never for no hosts |
| Ansible.Diff | internal/ansible/ansible.go:575-585 | the loop with its early exit reports a change iff some host changed something, and none for no hosts |
| Ansible.RunResult | internal/ansible/ansible.go:366-417 | fails iff the start or the wait fails; a start error is returned as is; a wait error is kept (matched by `errors.Is`); outside check mode a clean run returns no output |
| Ansible.FailedRunKeepsError | internal/ansible/ansible.go:405-414 | a failed run returns the wait error, annotated with the failure reason when it can be extracted, and always matching the original error |
| Ansible.OutputOnlyInCheckMode | internal/ansible/ansible.go:378-389 | the captured output is returned in check mode and is empty otherwise |
| Ansible.Validate | internal/ansible/ansible.go:278-295 | a launch only with exactly one of a playbook and roles; the playbook form iff a playbook is given; the launch path is the path the command runs from |
| Ansible.ValidateCases | internal/ansible/ansible.go:278-292 | exactly one of a playbook and roles is accepted; an inline playbook runs `playbook.yml` from the working directory; roles run the first role from the selected role path |
| Ansible.OnlyFirstRoleRuns | internal/ansible/ansible.go:287-292 | roles after the first do not change what runs |
| Ansible.ChooseCommand | internal/ansible/ansible.go:278-292 | the switch at the head of `Init` picks exactly the command and path the validation describes |
| Ansible.Runner.constructor | internal/ansible/ansible.go:345-354 | a new runner holds the given options and starts outside check mode |
| Ansible.Runner.EnableCheckMode | internal/ansible/ansible.go:588-590 | sets check mode and nothing else |
| Ansible.Runner.Run | internal/ansible/ansible.go:366-417 | the command built for the current check mode plus `--rotate-artifacts <limit> --ident <id>`, and the run's result |
| Ansible.Runner.WriteExtraVar | internal/ansible/ansible.go:548-571 | a read or decode error, or the write error, is returned and leaves the file unchanged; otherwise the file holds the merged variables |
| Ansible.Init | internal/ansible/ansible.go:268-331 | the validation, mkdir, write and policy errors in that order; otherwise `env/extravars` holds the initial vars and a new runner holds the chosen command, path, policy, work dir and limit |
| AnsibleRun.Kube.Get | internal/controller/ansibleRun/ansibleRun.go:331-334 | the lookup the store answers with |
| AnsibleRun.Kube.Update | internal/controller/ansibleRun/ansibleRun.go:469-471 | the update error is returned; only a successful update stores the object's last-applied annotation |
| AnsibleRun.AnsibleRunner.WriteExtraVar | internal/controller/ansibleRun/ansibleRun.go:86-91 | the call is logged, its answer returned, check mode unchanged |
| AnsibleRun.AnsibleRunner.EnableCheckMode | internal/controller/ansibleRun/ansibleRun.go:86-91 | the call is logged and check mode set |
| AnsibleRun.AnsibleRunner.Run | internal/controller/ansibleRun/ansibleRun.go:86-91 | the call is logged, its answer returned, check mode unchanged |
| AnsibleRun.AnsibleRunner.Wait | internal/controller/ansibleRun/ansibleRun.go:86-91 | the call is logged, its answer returned, check mode unchanged |
| AnsibleRun.ApplyCalls | internal/controller/ansibleRun/ansibleRun.go:476-485 | the extra var is always written first; a run iff the write succeeded; a wait iff write and run succeeded |
| AnsibleRun.ApplyError | internal/controller/ansibleRun/ansibleRun.go:476-485 | no error iff write, run and wait all succeed; otherwise the first error: the write's, else the run's, else the wait's |
| AnsibleRun.UpToDate | internal/controller/ansibleRun/ansibleRun.go:451-457 | a resource never applied is never up to date |
| AnsibleRun.NoRunWithoutExtraVar | internal/controller/ansibleRun/ansibleRun.go:476-485 | when writing the extra var fails nothing is run and that error is returned |
| AnsibleRun.Apply | internal/controller/ansibleRun/ansibleRun.go:418-432 | write, run and wait, each only after the previous succeeded, returning the first error |
| AnsibleRun.GetLastAppliedParameters | internal/controller/ansibleRun/ansibleRun.go:435-446 | no annotation gives no parameters; an undecodable one fails with "cannot unmarshal template"; otherwise its parameters |
| AnsibleRun.HandleLastApplied | internal/controller/ansibleRun/ansibleRun.go:450-493 | up to date iff the snapshot equals the desired parameters, and then nothing is called; otherwise the snapshot is recorded, stored, and the present state applied; every error-free path reports existing and up to date |
| AnsibleRun.ObserveInCheckMode | internal/controller/ansibleRun/ansibleRun.go:346-374 | write the present state, enable check mode, run and wait, parse; up to date iff no host changed; each error is returned as is |
| AnsibleRun.Observe | internal/controller/ansibleRun/ansibleRun.go:312-382 | the deletion policy always becomes Orphan; a missing policy is recorded as ObserveAndDelete; deleted means existing; not found means absent; get and last-applied errors are wrapped; otherwise exactly what `handleLastApplied` does, including a failed store update returned before any run; CheckWhenObserve does exactly the check-mode observation with every error returned; an unknown policy observes nothing and calls nothing; check mode changes only under CheckWhenObserve, and the snapshot and store change only when `handleLastApplied` records one |
| AnsibleRun.Update | internal/controller/ansibleRun/ansibleRun.go:390-408 | check mode off, run, wait, the errors as they are, no connection details |
| AnsibleRun.Create | internal/controller/ansibleRun/ansibleRun.go:384-388 | does exactly what Update does |
| AnsibleRun.Delete | internal/controller/ansibleRun/ansibleRun.go:410-433 | the resource is marked Deleting, then the absent state is written, run and waited for; check mode is left as it was, so after a CheckWhenObserve observation on the same runner the absent run is a check run |
| AnsibleRun.ObserveTwice | internal/controller/ansibleRun/ansibleRun.go:459-486 | once the store accepted the new snapshot, the next observation is up to date and calls the runner no more, even after a failed run |
| AnsibleRun.AddBehaviorVars | internal/controller/ansibleRun/ansibleRun.go:495-501 | the keys are those of the vars, and a key's value is that of its last occurrence |
| AnsibleRun.SourcesText | internal/controller/ansibleRun/ansibleRun.go:177-185 | fails iff some inventory source fails; otherwise at least one character per source |
| AnsibleRun.SourcesTextAppend | internal/controller/ansibleRun/ansibleRun.go:177-185 | the text of a concatenation of sources is the text of each part, in order |
| AnsibleRun.SourcesTextOne | internal/controller/ansibleRun/ansibleRun.go:177-185 | one source gives its content followed by a newline |
| AnsibleRun.SourcesTextFirstError | internal/controller/ansibleRun/ansibleRun.go:177-181 | the first failing source's error, wrapped with "cannot get Inventory", is the result |
| AnsibleRun.Inventory | internal/controller/ansibleRun/ansibleRun.go:171-200 | the hosts file is written iff there is a source or an inline inventory, with mode 0700 when executable and 0600 otherwise, holding each source and the inline inventory on its own line |
| AnsibleRun.PlanRequirements | internal/controller/ansibleRun/ansibleRun.go:263-281 | nothing without requirements or roles; the file holds both joined by a newline; collections are installed iff the config has requirements, before the roles, which are always installed |
| AnsibleRun.Install | internal/controller/ansibleRun/ansibleRun.go:283-292 | the installs run in order and the first failure stops the rest and is returned |

## Left out

- Processes: starting ansible-runner and ansible-galaxy, the interrupt-then-kill shutdown, and stdout/stderr wiring. A process is represented by its start error, its output and its wait error.
- The generated run id (`uuid.New`) is a parameter.
- `os.Environ`, `user.Current`, `os.Stat` and `os.ReadDir` become parameters: the environment, the home directory, the set of existing directories and the directory listing.
- JSON and YAML text. Files hold decoded values. `json.Marshal` of the parameters cannot fail in the model. The roles YAML document of `Connect` is a parameter.
- Go's case-insensitive matching of JSON keys on decode is not modelled: keys must match exactly.
- `%q` quoting covers only the escapes `\"`, `\\`, `\n`, `\t` and `\r`. Other control and non-printable characters are not escaped.
- `runnerutil.ConvertMapToSlice` is not part of this model. Its entries follow Go's map iteration order, which is a parameter `order` listing each key once.
- `runnerutil.RunnerBinary`, `GetFullPath`, `ConvertKVVarsToMap` and the `Hosts` constant are not part of this model. `galaxyutil.RequirementsFile` is the constant `requirements.yml`.
- `filepath.Clean` is the identity. Paths are joined with "/".
- Ansible.DecodeExtraVars: when `env/extravars` holds the JSON document `null`, Go's `json.Unmarshal` sets the map to nil and the assignment in `WriteExtraVar` panics. The model returns the error "assignment to entry in nil map" instead, and `Ansible.Runner.WriteExtraVar` returns it. `Init` never writes such a file: it replaces a marshalled `null` by an empty file.
- JSON numbers are integers only (`Json.Number`). Floating-point values in extra vars and event data are not modelled.
- Ansible.MergeKeepsOtherVars: states that every other stored variable is kept with its decoded value. Go decodes `env/extravars` into `map[string]interface{}`, so every stored number passes through float64 and is re-marshalled. An integer above 2^53 (such as 9007199254740993) is written back rounded. The model, whose numbers are exact integers, does not capture this loss; the same holds for `Ansible.Runner.WriteExtraVar`.
- ShardUtil.IsResourceForShardHelper: `requires totalShards > 0` excludes the divide-by-zero panic Go raises when the shard count is 0; `ShardUtil.ShardOf` and `ShardUtil.IsResourceForShard` carry the same precondition. The panic is not modelled.
- The `log.FromContext(...).V(1).Info` calls are not modelled: the one after a failed diagnosis in `Run`, and the two on skipped event files in `parseEvents`. Logging has no effect on any result.
- Ansible.Runner.WriteExtraVar: a failed `os.WriteFile` is taken to leave the file unchanged. A partially written file is not modelled.
- `Connect`, partly:
  - not modelled: the working-directory creation, the usage tracker, fetching the provider config, and credential and git-credential extraction and writing;
  - not modelled: `os.Setenv`, writing the inline playbook, and the write and chmod errors of the hosts and requirements files;
  - modelled: the inventory, requirements and install decisions.
- The lease and leader-election setup of the controller and the PlaybookSet controller are not part of this model.
- `GetPolicyRun` and `SetPolicyRun` are map reads and writes of the `ansible.crossplane.io/runPolicy` annotation.
- AnsibleRun.Observe:
  - the Kubernetes object is reduced to its last-applied annotation and the deletion flag;
  - `equality.Semantic.DeepEqual` is value equality of the parameters;
  - the `NotFound` test is the `NotFound` lookup outcome;
  - `results.ParseJSONResultsStream` is a runner answer: the changed count per host, or its error.
- The controller's `ansibleRunner` interface (internal/controller/ansibleRun/ansibleRun.go:86-91) has a `Run` that returns the command to wait on. `Ansible.Runner.Run` waits itself. The two are not connected here: `AnsibleRun` drives an abstract runner with separate `Run` and `Wait` calls, each with its own outcome.
- The type assertions that report `errNotAnsibleRun` cannot fail in a typed model.
