/** The ansible-runner client of internal/ansible/ansible.go: run policies,
    the command line and environment handed to ansible-runner and
    ansible-galaxy, the role path lookup, `Init`, and the `Runner` whose
    methods run the content and keep the `env/extravars` file.

    The process, the UUID, the file system and the provider's own
    environment are inputs: a `Host` says what the machine looks like, a
    `Process` what the started command does, a `FileSystem` what reading a
    path gives. */
module Ansible {
  import opened Outcomes
  import Json
  import Text
  import AnsibleEvents

  const AnsibleRolesPath: string := "ANSIBLE_ROLE_PATH"
  const AnsibleInventoryPath: string := "ANSIBLE_INVENTORY"
  const AnnotationKeyPolicyRun: string := "ansible.crossplane.io/runPolicy"
  const ErrMkdir: string := "cannot make directory"
  const PlaybookYml: string := "playbook.yml"
  const ProviderMetaKey: string := "ansible_provider_meta"
  /** `galaxyutil.RequirementsFile`; pkg/galaxyutil is not part of this
      model, the name is the one the test fixtures write. */
  const RequirementsFile: string := "requirements.yml"

  // ----- Run policies -----

  datatype RunPolicy = ObserveAndDelete | CheckWhenObserve
  {
    function Name(): string {
      match this
      case ObserveAndDelete => "ObserveAndDelete"
      case CheckWhenObserve => "CheckWhenObserve"
    }
  }

  /** `newRunPolicy`: the empty name means ObserveAndDelete; any name other
      than the two policies is refused. */
  function NewRunPolicy(name: string): (r: Result<RunPolicy, Error>)
    ensures r.Success? <==> name == "" || name == "ObserveAndDelete" || name == "CheckWhenObserve"
    ensures r.Success? ==> r.value.Name() == (if name == "" then "ObserveAndDelete" else name)
    ensures r.Failure? ==> r.error.Message() == "run policy " + Text.Quote(name) + " not supported"
  {
    if name == "" || name == "ObserveAndDelete" then Success(ObserveAndDelete)
    else if name == "CheckWhenObserve" then Success(CheckWhenObserve)
    else Failure(Text("run policy " + Text.Quote(name) + " not supported"))
  }

  /** Every policy is parsed back from its own name. */
  lemma RunPolicyRoundTrip(p: RunPolicy)
    ensures NewRunPolicy(p.Name()) == Success(p)
  {
  }

  /** `GetPolicyRun`: the run policy annotation, "" when it is absent. */
  function PolicyAnnotation(annotations: map<string, string>): (name: string)
    ensures AnnotationKeyPolicyRun !in annotations ==> name == ""
    ensures AnnotationKeyPolicyRun in annotations ==> name == annotations[AnnotationKeyPolicyRun]
    ensures name != "" ==> AnnotationKeyPolicyRun in annotations && annotations[AnnotationKeyPolicyRun] == name
  {
    if AnnotationKeyPolicyRun in annotations then annotations[AnnotationKeyPolicyRun] else ""
  }

  // ----- Parameters and the resource being run -----

  datatype Parameters = Parameters(
    galaxyBinary: string,
    runnerBinary: string,
    workingDirPath: string,
    collectionsPath: string,
    rolesPath: string,
    artifactsHistoryLimit: int)

  datatype Role = Role(name: string, src: string, version: string)

  /** The fields of an AnsibleRun's `spec.forProvider` that the runner and
      the controller read. `vars` is the raw `vars` document, `Null` when it
      is unset. */
  datatype AnsibleRunParameters = AnsibleRunParameters(
    playbookInline: Option<string>,
    roles: seq<Role>,
    vars: Json.Value,
    inventoryInline: Option<string>,
    executableInventory: bool)

  // ----- The environment of a command -----

  /** One `KEY=VALUE` entry of a process environment. */
  datatype EnvVar = EnvVar(key: string, value: string)

  /** The value of `key` in an environment list; when a key repeats, the
      last entry wins, as `exec.Cmd` keeps the last duplicate. */
  function Getenv(env: seq<EnvVar>, key: string): (r: Option<string>)
    ensures r.Some? <==> exists i :: 0 <= i < |env| && env[i].key == key
    ensures r.Some? ==> exists i :: 0 <= i < |env| && env[i] == EnvVar(key, r.value)
    decreases |env|
  {
    if env == [] then None
    else if env[|env| - 1].key == key then Some(env[|env| - 1].value)
    else Getenv(env[..|env| - 1], key)
  }

  /** Entries appended later override earlier ones. */
  lemma {:induction false} GetenvAppend(a: seq<EnvVar>, b: seq<EnvVar>, key: string)
    ensures Getenv(a + b, key) == if Getenv(b, key).Some? then Getenv(b, key) else Getenv(a, key)
    decreases |b|
  {
    if b == [] {
      assert a + b == a;
    } else {
      var n := |b| - 1;
      assert (a + b)[..|a + b| - 1] == a + b[..n];
      assert (a + b)[|a + b| - 1] == b[n];
      if b[n].key != key {
        GetenvAppend(a, b[..n], key);
      }
    }
  }

  /** `order` lists exactly the keys of `vars`. */
  predicate Lists(order: seq<string>, vars: map<string, string>) {
    (forall k :: k in order ==> k in vars) && (forall k :: k in vars ==> k in order)
  }

  /** `runnerutil.ConvertMapToSlice(vars)` (not part of this model): one entry
      per key, in the order `order` enumerates the map, which Go leaves
      unspecified. Whatever that order, looking a key up in the slice gives
      the map's value, and a key the map lacks is not set. */
  function VarsSlice(vars: map<string, string>, order: seq<string>): (env: seq<EnvVar>)
    requires Lists(order, vars)
    ensures |env| == |order|
    ensures forall key :: Getenv(env, key) == if key in vars then Some(vars[key]) else None
  {
    var env := seq(|order|, i requires 0 <= i < |order| => EnvVar(order[i], vars[order[i]]));
    ListedLookup(vars, order, env);
    env
  }

  /** A slice holding one entry per listed key, with its value, answers
      every lookup as the map does. */
  lemma ListedLookup(vars: map<string, string>, order: seq<string>, env: seq<EnvVar>)
    requires Lists(order, vars)
    requires |env| == |order|
    requires forall i :: 0 <= i < |order| ==> env[i] == EnvVar(order[i], vars[order[i]])
    ensures forall key :: Getenv(env, key) == if key in vars then Some(vars[key]) else None
  {
    forall key
      ensures Getenv(env, key) == if key in vars then Some(vars[key]) else None
    {
      if key in vars {
        assert key in order;
        var i :| 0 <= i < |order| && order[i] == key;
        assert env[i].key == key;
      }
    }
  }

  /** What the provider's machine looks like: its own environment
      (`os.Environ`), the inventory file name `runnerutil.Hosts` (not part of
      this model), the current user's home directory or the error looking it
      up, and the paths `os.Stat` finds. */
  datatype Host = Host(
    environ: seq<EnvVar>,
    hostsFile: string,
    homeDir: Result<string, Error>,
    existing: set<string>)

  // ----- Command lines -----

  /** The command a `cmdFuncType` closure builds, defunctionalised: the
      closure of `playbookCmdFunc` or of `roleCmdFunc` with what it captured. */
  datatype CmdFunc =
    | PlaybookCmd(p: Parameters, playbookName: string, path: string)
    | RoleCmd(p: Parameters, roleName: string, path: string)

  datatype Command = Command(binary: string, args: seq<string>, env: seq<EnvVar>)

  /** Check mode is passed through ansible-runner's `--cmdline`. */
  function CheckModeOptions(checkMode: bool): seq<string> {
    if checkMode then ["--cmdline", "\\--check"] else []
  }

  /** The arguments before the check-mode options. */
  function BaseArgs(f: CmdFunc): seq<string> {
    match f
    case PlaybookCmd(_, name, path) => ["run", path, "-p", name]
    case RoleCmd(p, name, path) =>
      ["run", p.workingDirPath, "--role", name, "--roles-path", path, "--project-dir", p.workingDirPath]
  }

  /** The value `ANSIBLE_INVENTORY` is forced to. */
  function InventoryValue(f: CmdFunc, host: Host): string {
    match f
    case PlaybookCmd(_, _, _) => host.hostsFile
    case RoleCmd(p, _, _) => Text.JoinPath(p.workingDirPath, host.hostsFile)
  }

  /** Calling the closure with the behaviour vars and the check-mode flag:
      ansible-runner run with the playbook or role options; the environment
      is the provider's own, then the behaviour vars, then the inventory
      override. */
  function BuildCommand(f: CmdFunc, host: Host, behaviorVars: map<string, string>, order: seq<string>,
                        checkMode: bool): (c: Command)
    requires Lists(order, behaviorVars)
    ensures c.binary == f.p.runnerBinary
    ensures |c.args| == |BaseArgs(f)| + (if checkMode then 2 else 0) && c.args[..|BaseArgs(f)|] == BaseArgs(f)
    ensures Getenv(c.env, AnsibleInventoryPath) == Some(InventoryValue(f, host))
  {
    Command(f.p.runnerBinary, BaseArgs(f) + CheckModeOptions(checkMode),
            host.environ + VarsSlice(behaviorVars, order) + [EnvVar(AnsibleInventoryPath, InventoryValue(f, host))])
  }

  /** The two argument vectors of ansible-runner. */
  lemma CommandArgs(f: CmdFunc, host: Host, behaviorVars: map<string, string>, order: seq<string>, checkMode: bool)
    requires Lists(order, behaviorVars)
    ensures var args := BuildCommand(f, host, behaviorVars, order, checkMode).args;
      (f.PlaybookCmd? ==> args[..4] == ["run", f.path, "-p", f.playbookName]) &&
      (f.RoleCmd? ==> args[..8] == ["run", f.p.workingDirPath, "--role", f.roleName,
                                    "--roles-path", f.path, "--project-dir", f.p.workingDirPath]) &&
      |args| == |BaseArgs(f)| + (if checkMode then 2 else 0)
  {
  }

  /** Check mode changes nothing but the two trailing `--cmdline \--check`
      arguments. */
  lemma CheckModeOnlyAddsOptions(f: CmdFunc, host: Host, behaviorVars: map<string, string>, order: seq<string>)
    requires Lists(order, behaviorVars)
    ensures var off := BuildCommand(f, host, behaviorVars, order, false);
      var on := BuildCommand(f, host, behaviorVars, order, true);
      on.args == off.args + ["--cmdline", "\\--check"] && on.env == off.env && on.binary == off.binary
  {
    assert BaseArgs(f) + [] == BaseArgs(f);
  }

  /** In the command's environment `ANSIBLE_INVENTORY` is always the
      override, a behaviour var beats the provider's environment, and every
      other variable is inherited. */
  lemma CommandEnvironment(f: CmdFunc, host: Host, behaviorVars: map<string, string>, order: seq<string>,
                           checkMode: bool, key: string)
    requires Lists(order, behaviorVars)
    ensures Getenv(BuildCommand(f, host, behaviorVars, order, checkMode).env, key) ==
      if key == AnsibleInventoryPath then Some(InventoryValue(f, host))
      else if key in behaviorVars then Some(behaviorVars[key])
      else Getenv(host.environ, key)
  {
    var slice := VarsSlice(behaviorVars, order);
    var last := [EnvVar(AnsibleInventoryPath, InventoryValue(f, host))];
    assert BuildCommand(f, host, behaviorVars, order, checkMode).env == (host.environ + slice) + last;
    GetenvAppend(host.environ + slice, last, key);
    assert last[..0] == [];
    if key != AnsibleInventoryPath {
      GetenvAppend(host.environ, slice, key);
    }
  }

  // ----- Role path lookup -----

  /** Ansible's default role directories. */
  function DefaultRolePaths(home: string): seq<string> {
    [Text.JoinPath(home, ".ansible/roles"), "/usr/share/ansible/roles", "/etc/ansible/roles"]
  }

  /** The first of `paths` that exists. */
  function FirstExisting(paths: seq<string>, existing: set<string>): (r: Option<string>)
    ensures r.None? <==> forall i :: 0 <= i < |paths| ==> paths[i] !in existing
    ensures r.Some? ==> exists i :: 0 <= i < |paths| && paths[i] == r.value && r.value in existing &&
                                    forall j :: 0 <= j < i ==> paths[j] !in existing
  {
    if paths == [] then None
    else if paths[0] in existing then Some(paths[0])
    else
      var r := FirstExisting(paths[1..], existing);
      assert forall i :: 1 <= i < |paths| ==> paths[i] == paths[1..][i - 1];
      if r.Some? then
        assert exists i :: 0 <= i < |paths| && paths[i] == r.value && r.value in existing &&
                           forall j :: 0 <= j < i ==> paths[j] !in existing by {
          var k :| 0 <= k < |paths[1..]| && paths[1..][k] == r.value && r.value in existing &&
                   forall j :: 0 <= j < k ==> paths[1..][j] !in existing;
          assert paths[k + 1] == r.value;
          assert forall j :: 0 <= j < k + 1 ==> paths[j] !in existing by {
            forall j | 0 <= j < k + 1 ensures paths[j] !in existing {
              if j > 0 { assert paths[j] == paths[1..][j - 1]; }
            }
          }
        }
        r
      else r
  }

  /** The role path `selectRolePath` settles on: a non-empty behaviour var,
      else the configured roles path, else the provider's environment
      variable when it is set (even to ""), else the first default directory
      that exists, else "". */
  function RolePath(p: Parameters, behaviorVars: map<string, string>, host: Host): (r: Result<string, Error>)
    ensures r.Failure? ==> host.homeDir.Failure? && r.error == host.homeDir.error
    ensures r.Success? ==>
      (AnsibleRolesPath in behaviorVars && r.value == behaviorVars[AnsibleRolesPath]) || r.value == p.rolesPath ||
      Getenv(host.environ, AnsibleRolesPath) == Some(r.value) || r.value in host.existing || r.value == ""
  {
    if AnsibleRolesPath in behaviorVars && behaviorVars[AnsibleRolesPath] != "" then
      Success(behaviorVars[AnsibleRolesPath])
    else if p.rolesPath != "" then Success(p.rolesPath)
    else if Getenv(host.environ, AnsibleRolesPath).Some? then Success(Getenv(host.environ, AnsibleRolesPath).value)
    else match host.homeDir
      case Failure(e) => Failure(e)
      case Success(home) =>
        var found := FirstExisting(DefaultRolePaths(home), host.existing);
        Success(if found.Some? then found.value else "")
  }

  /** The lookup order of `selectRolePath`: each source is used only when
      every earlier one is empty or unset, and the user lookup can only fail
      when the defaults are reached. */
  lemma RolePathPriority(p: Parameters, behaviorVars: map<string, string>, host: Host)
    ensures var r := RolePath(p, behaviorVars, host);
      var fromVars := AnsibleRolesPath in behaviorVars && behaviorVars[AnsibleRolesPath] != "";
      var fromEnv := Getenv(host.environ, AnsibleRolesPath);
      (fromVars ==> r == Success(behaviorVars[AnsibleRolesPath])) &&
      (!fromVars && p.rolesPath != "" ==> r == Success(p.rolesPath)) &&
      (!fromVars && p.rolesPath == "" && fromEnv.Some? ==> r == Success(fromEnv.value)) &&
      (r.Failure? <==> !fromVars && p.rolesPath == "" && fromEnv.None? && host.homeDir.Failure?) &&
      (r.Failure? ==> r.error == host.homeDir.error)
  {
  }

  /** When nothing is configured, the first existing default directory is
      taken, and "" when none exists. */
  lemma RolePathDefaults(p: Parameters, behaviorVars: map<string, string>, host: Host)
    requires AnsibleRolesPath !in behaviorVars || behaviorVars[AnsibleRolesPath] == ""
    requires p.rolesPath == "" && Getenv(host.environ, AnsibleRolesPath).None? && host.homeDir.Success?
    ensures var r := RolePath(p, behaviorVars, host);
      var defaults := DefaultRolePaths(host.homeDir.value);
      r.Success? &&
      (r.value == "" <==> forall i :: 0 <= i < 3 ==> defaults[i] !in host.existing) &&
      (r.value != "" ==> exists i :: 0 <= i < 3 && defaults[i] == r.value && r.value in host.existing &&
                                     forall j :: 0 <= j < i ==> defaults[j] !in host.existing)
  {
    assert Text.JoinPath(host.homeDir.value, ".ansible/roles") != "";
  }

  /** `selectRolePath`, walking the default directories until one exists. */
  method SelectRolePath(p: Parameters, behaviorVars: map<string, string>, host: Host) returns (r: Result<string, Error>)
    ensures r == RolePath(p, behaviorVars, host)
  {
    var osRolesPath := Getenv(host.environ, AnsibleRolesPath);
    if AnsibleRolesPath in behaviorVars && behaviorVars[AnsibleRolesPath] != "" {
      return Success(behaviorVars[AnsibleRolesPath]);
    } else if p.rolesPath != "" {
      return Success(p.rolesPath);
    } else if osRolesPath.Some? {
      return Success(osRolesPath.value);
    }
    if host.homeDir.Failure? {
      return Failure(host.homeDir.error);
    }
    var rolesPaths := DefaultRolePaths(host.homeDir.value);
    var rolePath := "";
    var i := 0;
    while i < |rolesPaths|
      invariant 0 <= i <= |rolesPaths|
      invariant forall j :: 0 <= j < i ==> rolesPaths[j] !in host.existing
      invariant rolePath == ""
      decreases |rolesPaths| - i
    {
      if rolesPaths[i] in host.existing {
        rolePath := rolesPaths[i];
        break;
      }
      i := i + 1;
    }
    ghost var found := FirstExisting(rolesPaths, host.existing);
    if i < |rolesPaths| {
      assert found.Some? && found.value == rolesPaths[i] by {
        var k :| 0 <= k < |rolesPaths| && rolesPaths[k] == found.value && found.value in host.existing &&
                 forall j :: 0 <= j < k ==> rolesPaths[j] !in host.existing;
        assert k == i;
      }
    }
    r := Success(rolePath);
  }

  // ----- ansible-galaxy -----

  /** The ansible-galaxy command `GalaxyInstall` runs for a requirements
      type: collections or roles from the requirements file (roles into the
      selected role path), always verbose. */
  function GalaxyCommand(p: Parameters, behaviorVars: map<string, string>, order: seq<string>, host: Host,
                         requirementsType: string): (r: Result<Command, Error>)
    requires Lists(order, behaviorVars)
    ensures r.Failure? <==> requirementsType == "role" && RolePath(p, behaviorVars, host).Failure?
    ensures r.Success? ==> r.value.binary == p.galaxyBinary && |r.value.args| > 0 && r.value.args[|r.value.args| - 1] == "--verbose"
    ensures r.Success? ==> r.value.env == host.environ + VarsSlice(behaviorVars, order)
  {
    var file := Text.JoinPath(p.workingDirPath, RequirementsFile);
    var env := host.environ + VarsSlice(behaviorVars, order);
    if requirementsType == "collection" then
      Success(Command(p.galaxyBinary, ["collection", "install", "--requirements-file", file, "--verbose"], env))
    else if requirementsType == "role" then
      match RolePath(p, behaviorVars, host)
      case Failure(e) => Failure(e)
      case Success(rolePath) =>
        Success(Command(p.galaxyBinary, ["role", "install", "--role-file", file, "--roles-path", rolePath, "--verbose"], env))
    else Success(Command(p.galaxyBinary, ["--verbose"], env))
  }

  /** What running ansible-galaxy gave: its combined output and its exit
      error, if any. */
  datatype GalaxyRun = GalaxyRun(output: string, err: Option<Error>)

  /** `GalaxyInstall`: the role path error, or the failure of the command
      annotated with its output. */
  function GalaxyInstall(p: Parameters, behaviorVars: map<string, string>, order: seq<string>, host: Host,
                         requirementsType: string, run: GalaxyRun): (r: Option<Error>)
    requires Lists(order, behaviorVars)
    ensures GalaxyCommand(p, behaviorVars, order, host, requirementsType).Failure? ==>
              r == Some(GalaxyCommand(p, behaviorVars, order, host, requirementsType).error)
    ensures GalaxyCommand(p, behaviorVars, order, host, requirementsType).Success? ==>
              (r.None? <==> run.err.None?) &&
              (r.Some? ==> r.value.Is(run.err.value) &&
                           r.value.Message() == "failed to install galaxy collections/roles: " + run.output + ": " +
                                                run.err.value.Message())
  {
    match GalaxyCommand(p, behaviorVars, order, host, requirementsType)
    case Failure(e) => Some(e)
    case Success(_) =>
      if run.err.Some? then Some(Wrapped("failed to install galaxy collections/roles: " + run.output, run.err.value))
      else None
  }

  // ----- The file system -----

  /** What reading a path gives, with the JSON already decoded. */
  datatype FileState =
    | Absent                     // the file does not exist
    | Unreadable(err: Error)     // any other read error
    | Empty                      // a file of length zero
    | Malformed(err: Error)      // bytes json.Unmarshal rejects, with its error
    | Document(doc: Json.Value)  // a JSON document

  /** The files written by the provider, by path. */
  class FileSystem {
    var files: map<string, FileState>

    constructor(files: map<string, FileState>)
      ensures this.files == files
    {
      this.files := files;
    }

    function Read(path: string): (s: FileState)
      reads this
      ensures path !in files ==> s == Absent
    {
      if path in files then files[path] else Absent
    }
  }

  function EnvDir(workDir: string): string {
    Text.JoinPath(workDir, "env")
  }

  function ExtraVarsPath(workDir: string): string {
    Text.JoinPath(EnvDir(workDir), "extravars")
  }

  /** What `Init` writes to `env/extravars`: the `vars` document, or an
      empty file when it is unset (marshalled as `null`). */
  function InitialExtraVars(vars: Json.Value): (s: FileState)
    ensures s.Empty? || s.Document?
    ensures s.Document? ==> s.doc == vars && !vars.Null?
    ensures !vars.Null? ==> s == Document(vars)
  {
    if vars.Null? then Empty else Document(vars)
  }

  /** Go's `json.Unmarshal` of a document into `map[string]interface{}`: an
      object gives its fields; `null` sets the map to nil, after which
      `WriteExtraVar`'s assignment panics (modelled as this error); any other
      kind is a type error. */
  function DecodeExtraVars(s: FileState): (r: Result<map<string, Json.Value>, Error>)
    ensures (s.Absent? || s.Empty?) ==> r == Success(map[])
    ensures s.Unreadable? ==> r == Failure(s.err)
    ensures s.Malformed? ==> r == Failure(s.err)
    ensures s.Document? ==> (r.Success? <==> s.doc.Object?)
    ensures s.Document? && s.doc.Object? ==> r == Success(s.doc.fields)
  {
    match s
    case Absent => Success(map[])
    case Empty => Success(map[])
    case Unreadable(e) => Failure(e)
    case Malformed(e) => Failure(e)
    case Document(Object(m)) => Success(m)
    case Document(Null) => Failure(Text("assignment to entry in nil map"))
    case Document(v) =>
      Failure(Text("json: cannot unmarshal " + AnsibleEvents.KindName(v) + " into Go value of type map[string]interface {}"))
  }

  /** The map `WriteExtraVar` writes back: the stored variables with
      `ansible_provider_meta` set to `extraVar`. */
  function MergeExtraVar(s: FileState, extraVar: map<string, Json.Value>): (r: Result<map<string, Json.Value>, Error>)
    ensures r.Failure? <==> DecodeExtraVars(s).Failure?
    ensures r.Failure? ==> r.error == DecodeExtraVars(s).error
  {
    match DecodeExtraVars(s)
    case Failure(e) => Failure(e)
    case Success(m) => Success(m[ProviderMetaKey := Json.Object(extraVar)])
  }

  /** The merge sets `ansible_provider_meta` and keeps every other stored
      variable. */
  lemma MergeKeepsOtherVars(s: FileState, extraVar: map<string, Json.Value>)
    requires DecodeExtraVars(s).Success?
    ensures var old_ := DecodeExtraVars(s).value;
      var m := MergeExtraVar(s, extraVar).value;
      m.Keys == old_.Keys + {ProviderMetaKey} &&
      m[ProviderMetaKey] == Json.Object(extraVar) &&
      forall k :: k in old_ && k != ProviderMetaKey ==> m[k] == old_[k]
  {
  }

  /** A missing file counts as an empty one. */
  lemma MissingFileIsEmpty(extraVar: map<string, Json.Value>)
    ensures MergeExtraVar(Absent, extraVar) == MergeExtraVar(Empty, extraVar)
    ensures MergeExtraVar(Absent, extraVar) == Success(map[ProviderMetaKey := Json.Object(extraVar)])
  {
  }

  /** Writing the same variable again leaves the same map. */
  lemma MergeIdempotent(s: FileState, extraVar: map<string, Json.Value>)
    requires MergeExtraVar(s, extraVar).Success?
    ensures var once := MergeExtraVar(s, extraVar).value;
      MergeExtraVar(Document(Json.Object(once)), extraVar) == Success(once)
  {
    var once := MergeExtraVar(s, extraVar).value;
    assert once[ProviderMetaKey := Json.Object(extraVar)] == once;
  }

  // ----- Diff -----

  /** Some host reported a change. */
  predicate HasChanges(changed: seq<int>): (b: bool)
    ensures changed == [] ==> !b
  {
    exists i :: 0 <= i < |changed| && changed[i] != 0
  }

  /** `Diff` over the `changed` count of every host in the stats of an
      `ansible-runner --check` run: true iff one of them is not zero. */
  method Diff(changed: seq<int>) returns (changes: bool)
    ensures changes <==> HasChanges(changed)
    ensures changed == [] ==> !changes
  {
    changes := false;
    for i := 0 to |changed|
      invariant !changes
      invariant forall j :: 0 <= j < i ==> changed[j] == 0
    {
      if changed[i] != 0 {
        changes := true;
        break;
      }
    }
  }

  // ----- Running -----

  /** What the started ansible-runner process does: the error of `Start`,
      what it writes to stdout, and the error of `Wait`. */
  datatype Process = Process(startErr: Option<Error>, stdout: string, waitErr: Option<Error>)

  function JobEventsDir(workDir: string, id: string): string {
    Text.JoinPath(Text.JoinPath(Text.JoinPath(workDir, "artifacts"), id), "job_events")
  }

  /** The argument vector `Run` starts: the closure's, then the artifact
      rotation limit and the run's identifier. */
  function RunArgs(base: seq<string>, limit: int, id: string): seq<string> {
    base + ["--rotate-artifacts", Text.Itoa(limit), "--ident", id]
  }

  /** What `Run` returns: a failed start as is; a failed run annotated with
      the diagnosis of its job events, or as is when the diagnosis fails;
      otherwise what was captured on stdout, which is nothing unless in
      check mode. */
  function RunResult(checkMode: bool, process: Process, eventsDir: string,
                     listing: Result<seq<AnsibleEvents.EventFile>, Error>): (r: Result<string, Error>)
    ensures r.Failure? <==> process.startErr.Some? || process.waitErr.Some?
    ensures process.startErr.Some? ==> r == Failure(process.startErr.value)
    ensures process.startErr.None? && process.waitErr.Some? ==> r.error.Is(process.waitErr.value)
    ensures r.Success? && !checkMode ==> r.value == ""
  {
    if process.startErr.Some? then Failure(process.startErr.value)
    else if process.waitErr.Some? then
      match AnsibleEvents.FailureReason(eventsDir, listing)
      case Failure(_) => Failure(process.waitErr.value)
      case Success(reason) => Failure(Annotated(process.waitErr.value, reason))
    else Success(if checkMode then process.stdout else "")
  }

  /** A failed run always reports the process error itself: unchanged when
      the events cannot be diagnosed, annotated with the reason (even "")
      otherwise. */
  lemma FailedRunKeepsError(checkMode: bool, process: Process, eventsDir: string,
                            listing: Result<seq<AnsibleEvents.EventFile>, Error>)
    requires process.startErr.None? && process.waitErr.Some?
    ensures var r := RunResult(checkMode, process, eventsDir, listing);
      var reason := AnsibleEvents.FailureReason(eventsDir, listing);
      r.Failure? && r.error.Is(process.waitErr.value) &&
      (reason.Failure? ==> r.error == process.waitErr.value) &&
      (reason.Success? ==> r.error.Message() == process.waitErr.value.Message() + ": " + reason.value)
  {
  }

  /** The output is captured only in check mode. */
  lemma OutputOnlyInCheckMode(process: Process, eventsDir: string, listing: Result<seq<AnsibleEvents.EventFile>, Error>)
    requires process.startErr.None? && process.waitErr.None?
    ensures RunResult(true, process, eventsDir, listing) == Success(process.stdout)
    ensures RunResult(false, process, eventsDir, listing) == Success("")
  {
  }

  /** `new` applied to `Init`'s options. */
  datatype Launch = Launch(path: string, cmdFunc: CmdFunc)

  const ErrNoContent: string := "at least a Playbook or Role should be provided"
  const ErrMutualExclusion: string :=
    "cannot execute Playbook(s) and Role(s) at the same time, please respect Mutual Exclusion"

  /** The validation in `Init`: a playbook or roles, not both; an inline
      playbook runs `playbook.yml` from the working directory; roles run
      the first role from the selected role path. */
  function Validate(p: Parameters, spec: AnsibleRunParameters, behaviorVars: map<string, string>, host: Host)
    : (r: Result<Launch, Error>)
    ensures r.Success? ==> (spec.playbookInline.Some? <==> |spec.roles| == 0)
    ensures r.Success? ==> r.value.path == r.value.cmdFunc.path && r.value.cmdFunc.p == p
    ensures r.Success? ==> (r.value.cmdFunc.PlaybookCmd? <==> spec.playbookInline.Some?)
  {
    if spec.playbookInline.None? && |spec.roles| == 0 then
      Failure(Text(ErrNoContent))
    else if spec.playbookInline.Some? && |spec.roles| != 0 then
      Failure(Text(ErrMutualExclusion))
    else if spec.playbookInline.Some? then
      Success(Launch(p.workingDirPath, PlaybookCmd(p, PlaybookYml, p.workingDirPath)))
    else
      match RolePath(p, behaviorVars, host)
      case Failure(e) => Failure(e)
      case Success(path) => Success(Launch(path, RoleCmd(p, spec.roles[0].name, path)))
  }

  /** Exactly one of a playbook and roles is accepted; the inline playbook
      is `playbook.yml` in the working directory, and a role run is of the
      first role only. */
  lemma ValidateCases(p: Parameters, spec: AnsibleRunParameters, behaviorVars: map<string, string>, host: Host)
    ensures var r := Validate(p, spec, behaviorVars, host);
      (spec.playbookInline.Some? == (|spec.roles| != 0) ==> r.Failure?) &&
      (spec.playbookInline.Some? && |spec.roles| == 0 ==>
         r == Success(Launch(p.workingDirPath, PlaybookCmd(p, "playbook.yml", p.workingDirPath)))) &&
      (spec.playbookInline.None? && |spec.roles| != 0 ==>
         (r.Success? <==> RolePath(p, behaviorVars, host).Success?) &&
         (r.Success? ==> r.value.cmdFunc.RoleCmd? && r.value.cmdFunc.roleName == spec.roles[0].name &&
                         r.value.path == RolePath(p, behaviorVars, host).value == r.value.cmdFunc.path))
  {
  }

  /** Only the first role matters. */
  lemma OnlyFirstRoleRuns(p: Parameters, spec: AnsibleRunParameters, rest: seq<Role>,
                          behaviorVars: map<string, string>, host: Host)
    requires |spec.roles| != 0
    ensures Validate(p, spec, behaviorVars, host) == Validate(p, spec.(roles := [spec.roles[0]] + rest), behaviorVars, host)
  {
  }

  /** What `os.MkdirAll` of the env directory did; an already existing
      directory is not an error. */
  datatype Mkdir = Created | AlreadyExists | MkdirFailed(err: Error)

  /** The runner: what to run, from where, with which behaviour vars, in
      which mode, under which policy. */
  class Runner {
    var path: string
    var behaviorVars: map<string, string>
    var cmdFunc: CmdFunc
    var workDir: string
    var checkMode: bool
    var policy: RunPolicy
    var artifactsHistoryLimit: int

    /** `new` with the options `Init` passes; check mode starts off. */
    constructor(path: string, cmdFunc: CmdFunc, behaviorVars: map<string, string>, policy: RunPolicy,
                workDir: string, artifactsHistoryLimit: int)
      ensures this.path == path && this.cmdFunc == cmdFunc && this.behaviorVars == behaviorVars
      ensures this.policy == policy && this.workDir == workDir
      ensures this.artifactsHistoryLimit == artifactsHistoryLimit && !checkMode
    {
      this.path := path;
      this.cmdFunc := cmdFunc;
      this.behaviorVars := behaviorVars;
      this.policy := policy;
      this.workDir := workDir;
      this.artifactsHistoryLimit := artifactsHistoryLimit;
      this.checkMode := false;
    }

    method EnableCheckMode(m: bool)
      modifies this
      ensures checkMode == m
      ensures path == old(path) && behaviorVars == old(behaviorVars) && cmdFunc == old(cmdFunc)
      ensures workDir == old(workDir) && policy == old(policy) && artifactsHistoryLimit == old(artifactsHistoryLimit)
    {
      checkMode := m;
    }

    /** `Run`: start the closure's command with the rotation limit and the
      identifier `id` appended, and diagnose a failed run from the job
      events it left (`listing` is what reading its events directory gave). */
    method Run(host: Host, order: seq<string>, id: string, process: Process,
               listing: Result<seq<AnsibleEvents.EventFile>, Error>)
      returns (cmd: Command, out: Result<string, Error>)
      requires Lists(order, behaviorVars)
      ensures var c := BuildCommand(cmdFunc, host, behaviorVars, order, checkMode);
        cmd == Command(c.binary, RunArgs(c.args, artifactsHistoryLimit, id), c.env)
      ensures cmd.args[|cmd.args| - 4..] == ["--rotate-artifacts", Text.Itoa(artifactsHistoryLimit), "--ident", id]
      ensures out == RunResult(checkMode, process, JobEventsDir(workDir, id), listing)
    {
      var dc := BuildCommand(cmdFunc, host, behaviorVars, order, checkMode);
      var args := dc.args;
      args := args + ["--rotate-artifacts", Text.Itoa(artifactsHistoryLimit)];
      args := args + ["--ident", id];
      assert args == RunArgs(dc.args, artifactsHistoryLimit, id);
      assert args[|args| - 4..] == ["--rotate-artifacts", Text.Itoa(artifactsHistoryLimit), "--ident", id];
      cmd := Command(dc.binary, args, dc.env);
      var stdoutBuf := "";
      if process.startErr.Some? {
        return cmd, Failure(process.startErr.value);
      }
      if process.waitErr.Some? {
        var jobEventsDir := JobEventsDir(workDir, id);
        var reason := AnsibleEvents.ExtractFailureReason(jobEventsDir, listing);
        if reason.Failure? {
          return cmd, Failure(process.waitErr.value);
        }
        return cmd, Failure(Annotated(process.waitErr.value, reason.value));
      }
      if checkMode {
        stdoutBuf := process.stdout;
      }
      out := Success(stdoutBuf);
    }

    /** `WriteExtraVar`: read `env/extravars`, set `ansible_provider_meta`,
      write the map back (`writeErr` is what writing gives). A read or
      decode error, or a write error, is returned; only a successful write
      changes the file. */
    method WriteExtraVar(fs: FileSystem, extraVar: map<string, Json.Value>, writeErr: Option<Error>)
      returns (err: Option<Error>)
      modifies fs
      ensures var merged := MergeExtraVar(old(fs.Read(ExtraVarsPath(workDir))), extraVar);
        (merged.Failure? ==> err == Some(merged.error) && fs.files == old(fs.files)) &&
        (merged.Success? && writeErr.Some? ==> err == writeErr && fs.files == old(fs.files)) &&
        (merged.Success? && writeErr.None? ==>
           err.None? && fs.files == old(fs.files)[ExtraVarsPath(workDir) := Document(Json.Object(merged.value))])
    {
      var extraVarsPath := ExtraVarsPath(workDir);
      var contentVars: map<string, Json.Value> := map[];
      var data := fs.Read(extraVarsPath);
      if data.Unreadable? {
        return Some(data.err);
      }
      if !data.Absent? && !data.Empty? {
        var decoded := DecodeExtraVars(data);
        if decoded.Failure? {
          return Some(decoded.error);
        }
        contentVars := decoded.value;
      }
      contentVars := contentVars[ProviderMetaKey := Json.Object(extraVar)];
      if writeErr.Some? {
        return writeErr;
      }
      fs.files := fs.files[extraVarsPath := Document(Json.Object(contentVars))];
      err := None;
    }
  }

  /** The switch at the head of `Init`, which picks the command to run. */
  method ChooseCommand(p: Parameters, spec: AnsibleRunParameters, behaviorVars: map<string, string>, host: Host)
    returns (r: Result<Launch, Error>)
    ensures r == Validate(p, spec, behaviorVars, host)
  {
    var cmdFunc: CmdFunc;
    var path: string;
    if spec.playbookInline.None? && |spec.roles| == 0 {
      return Failure(Text(ErrNoContent));
    } else if spec.playbookInline.Some? && |spec.roles| != 0 {
      return Failure(Text(ErrMutualExclusion));
    } else if spec.playbookInline.Some? {
      path := p.workingDirPath;
      cmdFunc := PlaybookCmd(p, PlaybookYml, path);
    } else {
      var selected := SelectRolePath(p, behaviorVars, host);
      if selected.Failure? {
        return Failure(selected.error);
      }
      path := selected.value;
      cmdFunc := RoleCmd(p, spec.roles[0].name, path);
    }
    r := Success(Launch(path, cmdFunc));
  }

  /** `Init`: validate the spec, create the env directory, write the
      initial `env/extravars`, parse the run policy annotation, and build
      the runner. */
  method Init(p: Parameters, spec: AnsibleRunParameters, annotations: map<string, string>,
              behaviorVars: map<string, string>, host: Host, fs: FileSystem, mkdir: Mkdir, writeErr: Option<Error>)
    returns (r: Result<Runner, Error>)
    modifies fs
    ensures var v := Validate(p, spec, behaviorVars, host);
      (v.Failure? ==> r == Failure(v.error) && fs.files == old(fs.files)) &&
      (v.Success? && mkdir.MkdirFailed? ==>
         r == Failure(Wrapped(EnvDir(p.workingDirPath) + ": " + ErrMkdir, mkdir.err)) && fs.files == old(fs.files)) &&
      (v.Success? && !mkdir.MkdirFailed? && writeErr.Some? ==> r == Failure(writeErr.value) && fs.files == old(fs.files))
    ensures var v := Validate(p, spec, behaviorVars, host);
      v.Success? && !mkdir.MkdirFailed? && writeErr.None? ==>
        fs.files == old(fs.files)[ExtraVarsPath(p.workingDirPath) := InitialExtraVars(spec.vars)] &&
        match NewRunPolicy(PolicyAnnotation(annotations))
        case Failure(e) => r == Failure(e)
        case Success(policy) =>
          r.Success? && fresh(r.value) &&
          r.value.path == v.value.path && r.value.cmdFunc == v.value.cmdFunc &&
          r.value.behaviorVars == behaviorVars && r.value.policy == policy &&
          r.value.workDir == p.workingDirPath && r.value.artifactsHistoryLimit == p.artifactsHistoryLimit &&
          !r.value.checkMode
  {
    var launch := ChooseCommand(p, spec, behaviorVars, host);
    if launch.Failure? {
      return Failure(launch.error);
    }
    var ansibleEnvDir := EnvDir(p.workingDirPath);
    if mkdir.MkdirFailed? {
      return Failure(Wrapped(ansibleEnvDir + ": " + ErrMkdir, mkdir.err));
    }
    if writeErr.Some? {
      return Failure(writeErr.value);
    }
    fs.files := fs.files[ExtraVarsPath(p.workingDirPath) := InitialExtraVars(spec.vars)];
    var rPolicy := NewRunPolicy(PolicyAnnotation(annotations));
    if rPolicy.Failure? {
      return Failure(rPolicy.error);
    }
    var runner := new Runner(launch.value.path, launch.value.cmdFunc, behaviorVars, rPolicy.value, p.workingDirPath, p.artifactsHistoryLimit);
    r := Success(runner);
  }
}
