/** The AnsibleRun controller of internal/controller/ansibleRun/ansibleRun.go:
    what `Observe`, `Create`, `Update` and `Delete` do to the managed
    resource, to the Kubernetes store and to the ansible runner, how the
    behaviour vars are collected, and the inventory and requirements
    decisions of `Connect`.

    The runner is abstract: its answers are fixed when it is built and
    every call made on it is logged. */
module AnsibleRun {
  import opened Outcomes
  import Json
  import Text
  import Ansible

  const ErrGetAnsibleRun: string := "cannot get AnsibleRun"
  const ErrGetLastApplied: string := "cannot get last applied"
  const ErrUnmarshalTemplate: string := "cannot unmarshal template"
  const ErrGetInventory: string := "cannot get Inventory"

  /** The condition type and reason `xpv1.Deleting()` sets. */
  const ReadyCondition: string := "Ready"
  const ReasonDeleting: string := "Deleting"

  datatype DeletionPolicy = Delete | Orphan

  /** The last-applied-configuration annotation, as `json.Unmarshal` into
      the parameters sees it: the parameters it holds, or the error decoding
      it gives. */
  datatype LastApplied = Marshalled(params: Ansible.AnsibleRunParameters) | Undecodable(err: Error)

  /** An AnsibleRun managed resource. */
  class ManagedRun {
    const name: string
    const deleted: bool                     // the deletion timestamp is set
    const forProvider: Ansible.AnsibleRunParameters
    var deletionPolicy: DeletionPolicy
    var annotations: map<string, string>
    var lastApplied: Option<LastApplied>
    var conditions: map<string, string>     // condition type to reason

    constructor(name: string, deleted: bool, forProvider: Ansible.AnsibleRunParameters,
                annotations: map<string, string>, lastApplied: Option<LastApplied>)
      ensures this.name == name && this.deleted == deleted && this.forProvider == forProvider
      ensures this.annotations == annotations && this.lastApplied == lastApplied
      ensures deletionPolicy == Delete && conditions == map[]
    {
      this.name := name;
      this.deleted := deleted;
      this.forProvider := forProvider;
      this.annotations := annotations;
      this.lastApplied := lastApplied;
      this.deletionPolicy := Delete;
      this.conditions := map[];
    }
  }

  /** What `kube.Get` answers for the resource: the stored object's
      last-applied annotation, a NotFound error, or any other error. */
  datatype Lookup = Stored(lastApplied: Option<LastApplied>) | NotFound(err: Error) | Unavailable(err: Error)

  /** The Kubernetes store, holding one AnsibleRun. */
  class Kube {
    var lookup: Lookup
    const updateErr: Option<Error>

    constructor(lookup: Lookup, updateErr: Option<Error>)
      ensures this.lookup == lookup && this.updateErr == updateErr
    {
      this.lookup := lookup;
      this.updateErr := updateErr;
    }

    method Get() returns (r: Lookup)
      ensures r == lookup
    {
      r := lookup;
    }

    /** `kube.Update`: on success the store holds the object's annotations. */
    method Update(obj: ManagedRun) returns (err: Option<Error>)
      modifies this
      ensures err == updateErr
      ensures updateErr.None? ==> lookup == Stored(obj.lastApplied)
      ensures updateErr.Some? ==> lookup == old(lookup)
    {
      if updateErr.Some? {
        return updateErr;
      }
      lookup := Stored(obj.lastApplied);
      err := None;
    }
  }

  datatype RunnerCall = WriteExtraVar(extraVar: map<string, Json.Value>) | EnableCheckMode(on: bool) | Run | Wait

  /** The `ansibleRunner` the controller drives: its policy name, the answer
      of each call, and the log of the calls made. `results` is what
      parsing the captured output gives: the `changed` count of each host,
      or the parse error. */
  class AnsibleRunner {
    const policyName: string
    const writeErr: Option<Error>
    const runErr: Option<Error>
    const waitErr: Option<Error>
    const results: Result<seq<int>, Error>
    var checkMode: bool
    var calls: seq<RunnerCall>

    constructor(policyName: string, writeErr: Option<Error>, runErr: Option<Error>, waitErr: Option<Error>,
                results: Result<seq<int>, Error>)
      ensures this.policyName == policyName && this.writeErr == writeErr && this.runErr == runErr
      ensures this.waitErr == waitErr && this.results == results
      ensures !checkMode && calls == []
    {
      this.policyName := policyName;
      this.writeErr := writeErr;
      this.runErr := runErr;
      this.waitErr := waitErr;
      this.results := results;
      this.checkMode := false;
      this.calls := [];
    }

    method WriteExtraVar(extraVar: map<string, Json.Value>) returns (err: Option<Error>)
      modifies this
      ensures calls == old(calls) + [RunnerCall.WriteExtraVar(extraVar)] && checkMode == old(checkMode)
      ensures err == writeErr
    {
      calls := calls + [RunnerCall.WriteExtraVar(extraVar)];
      err := writeErr;
    }

    method EnableCheckMode(on: bool)
      modifies this
      ensures calls == old(calls) + [RunnerCall.EnableCheckMode(on)] && checkMode == on
    {
      calls := calls + [RunnerCall.EnableCheckMode(on)];
      checkMode := on;
    }

    method Run() returns (err: Option<Error>)
      modifies this
      ensures calls == old(calls) + [RunnerCall.Run] && checkMode == old(checkMode)
      ensures err == runErr
    {
      calls := calls + [RunnerCall.Run];
      err := runErr;
    }

    method Wait() returns (err: Option<Error>)
      modifies this
      ensures calls == old(calls) + [RunnerCall.Wait] && checkMode == old(checkMode)
      ensures err == waitErr
    {
      calls := calls + [RunnerCall.Wait];
      err := waitErr;
    }
  }

  datatype Observation = Observation(resourceExists: bool, resourceUpToDate: bool)

  const NoObservation: Observation := Observation(false, false)

  /** `{name: {state: <state>}}`, the extra var the controller writes. */
  function StateVar(name: string, state: string): (v: map<string, Json.Value>)
    ensures v.Keys == {name}
  {
    map[name := Json.Object(map["state" := Json.Str(state)])]
  }

  /** The calls of writing `extraVar`, running and waiting, each made only
      when the one before succeeded. */
  function ApplyCalls(runner: AnsibleRunner, extraVar: map<string, Json.Value>): (calls: seq<RunnerCall>)
    ensures 1 <= |calls| <= 3 && calls[0] == RunnerCall.WriteExtraVar(extraVar)
    ensures RunnerCall.Run in calls <==> runner.writeErr.None?
    ensures RunnerCall.Wait in calls <==> runner.writeErr.None? && runner.runErr.None?
  {
    [RunnerCall.WriteExtraVar(extraVar)] +
    (if runner.writeErr.Some? then [] else [RunnerCall.Run] + (if runner.runErr.Some? then [] else [RunnerCall.Wait]))
  }

  /** The first error of writing, running and waiting. */
  function ApplyError(runner: AnsibleRunner): (err: Option<Error>)
    ensures err.None? <==> runner.writeErr.None? && runner.runErr.None? && runner.waitErr.None?
    ensures err.Some? ==> err == runner.writeErr || err == runner.runErr || err == runner.waitErr
    ensures runner.writeErr.Some? ==> err == runner.writeErr
    ensures runner.writeErr.None? && runner.runErr.Some? ==> err == runner.runErr
  {
    if runner.writeErr.Some? then runner.writeErr
    else if runner.runErr.Some? then runner.runErr
    else runner.waitErr
  }

  /** A run is made only when the extra var was written. */
  lemma NoRunWithoutExtraVar(runner: AnsibleRunner, extraVar: map<string, Json.Value>)
    requires runner.writeErr.Some?
    ensures ApplyCalls(runner, extraVar) == [RunnerCall.WriteExtraVar(extraVar)]
    ensures RunnerCall.Run !in ApplyCalls(runner, extraVar)
    ensures ApplyError(runner) == runner.writeErr
  {
  }

  /** Write `extraVar`, run, wait; stop at the first error. */
  method Apply(runner: AnsibleRunner, extraVar: map<string, Json.Value>) returns (err: Option<Error>)
    modifies runner
    ensures runner.calls == old(runner.calls) + ApplyCalls(runner, extraVar)
    ensures runner.checkMode == old(runner.checkMode)
    ensures err == ApplyError(runner)
  {
    err := runner.WriteExtraVar(extraVar);
    if err.Some? {
      return;
    }
    err := runner.Run();
    if err.Some? {
      return;
    }
    err := runner.Wait();
  }

  /** `getLastAppliedParameters`: no annotation means no parameters; an
      annotation that does not decode is an error. */
  function GetLastAppliedParameters(lastApplied: Option<LastApplied>)
    : (r: Result<Option<Ansible.AnsibleRunParameters>, Error>)
    ensures lastApplied.None? ==> r == Success(None)
    ensures r.Failure? <==> lastApplied.Some? && lastApplied.value.Undecodable?
    ensures r.Failure? ==> r.error == Wrapped(ErrUnmarshalTemplate, lastApplied.value.err)
    ensures r.Success? && r.value.Some? ==> lastApplied == Some(Marshalled(r.value.value))
  {
    match lastApplied
    case None => Success(None)
    case Some(Marshalled(p)) => Success(Some(p))
    case Some(Undecodable(e)) => Failure(Wrapped(ErrUnmarshalTemplate, e))
  }

  /** The resource is up to date iff a last-applied snapshot exists and
      equals the desired parameters. */
  predicate UpToDate(last: Option<Ansible.AnsibleRunParameters>, desired: Ansible.AnsibleRunParameters): (b: bool)
    ensures last.None? ==> !b
  {
    last.Some? && last.value == desired
  }

  /** What `handleLastApplied` leaves behind. Every path without error
      observes an existing, up-to-date resource. When up to date nothing is
      changed or called. Otherwise the desired parameters become the
      last-applied snapshot; a failed store update is returned before any
      run, and a successful one stores the snapshot and is followed by
      writing the `present` state, running and waiting. */
  twostate predicate LastAppliedHandled(last: Option<Ansible.AnsibleRunParameters>, desired: ManagedRun,
                                        runner: AnsibleRunner, kube: Kube, new obs: Observation, new err: Option<Error>)
    reads desired, runner, kube
  {
    (err.None? ==> obs == Observation(true, true)) &&
    (err.Some? ==> obs == NoObservation) &&
    (UpToDate(last, desired.forProvider) ==>
       err.None? && runner.calls == old(runner.calls) &&
       desired.lastApplied == old(desired.lastApplied) && kube.lookup == old(kube.lookup)) &&
    (!UpToDate(last, desired.forProvider) ==>
       desired.lastApplied == Some(Marshalled(desired.forProvider)) &&
       (kube.updateErr.Some? ==>
          err == kube.updateErr && runner.calls == old(runner.calls) && kube.lookup == old(kube.lookup)) &&
       (kube.updateErr.None? ==>
          kube.lookup == Stored(Some(Marshalled(desired.forProvider))) &&
          runner.calls == old(runner.calls) + ApplyCalls(runner, StateVar(desired.name, "present")) &&
          err == ApplyError(runner)))
  }

  /** `handleLastApplied`: unless up to date, record the desired parameters
      as last applied, update the stored object, then write the `present`
      state, run and wait. Every path without error observes an existing,
      up-to-date resource. */
  method HandleLastApplied(last: Option<Ansible.AnsibleRunParameters>, desired: ManagedRun,
                           runner: AnsibleRunner, kube: Kube)
    returns (obs: Observation, err: Option<Error>)
    modifies desired, runner, kube
    ensures desired.deletionPolicy == old(desired.deletionPolicy) && desired.annotations == old(desired.annotations)
    ensures desired.conditions == old(desired.conditions) && runner.checkMode == old(runner.checkMode)
    ensures LastAppliedHandled(last, desired, runner, kube, obs, err)
  {
    var isUpToDate := false;
    if last.Some? {
      if last.value == desired.forProvider {
        isUpToDate := true;
      }
    }
    if !isUpToDate {
      desired.lastApplied := Some(Marshalled(desired.forProvider));
      err := kube.Update(desired);
      if err.Some? {
        return NoObservation, err;
      }
      err := Apply(runner, StateVar(desired.name, "present"));
      if err.Some? {
        return NoObservation, err;
      }
    }
    return Observation(true, true), None;
  }

  /** What the CheckWhenObserve branch of `Observe` leaves behind: a failed
      write is returned before check mode is touched; otherwise check mode
      is on, the run and wait errors and then the parse error are returned
      in that order, and a clean run is up to date iff no host changed. */
  twostate predicate CheckedInCheckMode(name: string, runner: AnsibleRunner, new obs: Observation, new err: Option<Error>)
    reads runner
  {
    (err.Some? ==> obs == NoObservation) &&
    (runner.writeErr.Some? ==>
       err == runner.writeErr &&
       runner.calls == old(runner.calls) + [RunnerCall.WriteExtraVar(StateVar(name, "present"))] &&
       runner.checkMode == old(runner.checkMode)) &&
    (runner.writeErr.None? ==>
       runner.checkMode &&
       runner.calls == old(runner.calls) + [RunnerCall.WriteExtraVar(StateVar(name, "present")),
                                            RunnerCall.EnableCheckMode(true), RunnerCall.Run] +
                       (if runner.runErr.Some? then [] else [RunnerCall.Wait]) &&
       (runner.runErr.Some? ==> err == runner.runErr) &&
       (runner.runErr.None? && runner.waitErr.Some? ==> err == runner.waitErr) &&
       (runner.runErr.None? && runner.waitErr.None? && runner.results.Failure? ==> err == Some(runner.results.error)) &&
       (runner.runErr.None? && runner.waitErr.None? && runner.results.Success? ==>
          err.None? && obs == Observation(true, !Ansible.HasChanges(runner.results.value))))
  }

  /** The CheckWhenObserve branch of `Observe`: write the `present` state,
      run in check mode, and report up to date iff no host changed. */
  method ObserveInCheckMode(cr: ManagedRun, runner: AnsibleRunner) returns (obs: Observation, err: Option<Error>)
    modifies runner
    ensures CheckedInCheckMode(cr.name, runner, obs, err)
  {
    err := runner.WriteExtraVar(StateVar(cr.name, "present"));
    if err.Some? {
      return NoObservation, err;
    }
    runner.EnableCheckMode(true);
    err := runner.Run();
    if err.Some? {
      return NoObservation, err;
    }
    err := runner.Wait();
    if err.Some? {
      return NoObservation, err;
    }
    if runner.results.Failure? {
      return NoObservation, Some(runner.results.error);
    }
    var changes := Ansible.Diff(runner.results.value);
    return Observation(true, !changes), None;
  }

  /** `Observe`. The deletion policy is always set to Orphan first. Under
      ObserveAndDelete (or no policy, which is then recorded) a deleted
      resource exists, a missing one does not, and otherwise the stored
      last-applied snapshot decides; under CheckWhenObserve a check-mode run
      decides; any other policy observes nothing and calls nothing. */
  method Observe(cr: ManagedRun, runner: AnsibleRunner, kube: Kube) returns (obs: Observation, err: Option<Error>)
    modifies cr, runner, kube
    ensures cr.deletionPolicy == Orphan
    ensures cr.conditions == old(cr.conditions)
    ensures runner.policyName == "" ==>
      cr.annotations == old(cr.annotations)[Ansible.AnnotationKeyPolicyRun := "ObserveAndDelete"]
    ensures runner.policyName != "" ==> cr.annotations == old(cr.annotations)
    ensures runner.policyName != "CheckWhenObserve" ==> runner.checkMode == old(runner.checkMode)
    ensures runner.policyName !in {"", "ObserveAndDelete", "CheckWhenObserve"} ==>
      obs == NoObservation && err.None? && runner.calls == old(runner.calls) &&
      cr.lastApplied == old(cr.lastApplied) && kube.lookup == old(kube.lookup)
    ensures runner.policyName == "CheckWhenObserve" ==>
      CheckedInCheckMode(cr.name, runner, obs, err) &&
      cr.lastApplied == old(cr.lastApplied) && kube.lookup == old(kube.lookup)
    ensures runner.policyName in {"", "ObserveAndDelete"} && cr.deleted ==>
      obs == Observation(true, false) && err.None? && runner.calls == old(runner.calls) &&
      cr.lastApplied == old(cr.lastApplied) && kube.lookup == old(kube.lookup)
    ensures runner.policyName in {"", "ObserveAndDelete"} && !cr.deleted ==>
      match old(kube.lookup)
      case NotFound(_) =>
        obs == NoObservation && err.None? && runner.calls == old(runner.calls) &&
        cr.lastApplied == old(cr.lastApplied) && kube.lookup == old(kube.lookup)
      case Unavailable(e) =>
        obs == NoObservation && err == Some(Wrapped(ErrGetAnsibleRun, e)) && runner.calls == old(runner.calls) &&
        cr.lastApplied == old(cr.lastApplied) && kube.lookup == old(kube.lookup)
      case Stored(la) =>
        match GetLastAppliedParameters(la)
        case Failure(e) =>
          obs == NoObservation && err == Some(Wrapped(ErrGetLastApplied, e)) && runner.calls == old(runner.calls) &&
          cr.lastApplied == old(cr.lastApplied) && kube.lookup == old(kube.lookup)
        case Success(last) => LastAppliedHandled(last, cr, runner, kube, obs, err)
  {
    cr.deletionPolicy := Orphan;
    var policy := runner.policyName;
    if policy == "ObserveAndDelete" || policy == "" {
      if policy == "" {
        cr.annotations := cr.annotations[Ansible.AnnotationKeyPolicyRun := "ObserveAndDelete"];
      }
      if cr.deleted {
        return Observation(true, false), None;
      }
      var observed := kube.Get();
      if observed.NotFound? {
        return NoObservation, None;
      } else if observed.Unavailable? {
        return NoObservation, Some(Wrapped(ErrGetAnsibleRun, observed.err));
      }
      var lastParameters := GetLastAppliedParameters(observed.lastApplied);
      if lastParameters.Failure? {
        return NoObservation, Some(Wrapped(ErrGetLastApplied, lastParameters.error));
      }
      obs, err := HandleLastApplied(lastParameters.value, cr, runner, kube);
    } else if policy == "CheckWhenObserve" {
      obs, err := ObserveInCheckMode(cr, runner);
    } else {
      obs, err := NoObservation, None;
    }
  }

  /** `Update`: run for real (check mode off) and wait; the errors are
      returned as they are. There are no connection details. */
  method Update(runner: AnsibleRunner) returns (details: map<string, string>, err: Option<Error>)
    modifies runner
    ensures !runner.checkMode
    ensures runner.calls == old(runner.calls) + [RunnerCall.EnableCheckMode(false), RunnerCall.Run] +
                            (if runner.runErr.Some? then [] else [RunnerCall.Wait])
    ensures err == if runner.runErr.Some? then runner.runErr else runner.waitErr
    ensures details == map[]
  {
    details := map[];
    runner.EnableCheckMode(false);
    err := runner.Run();
    if err.Some? {
      return;
    }
    err := runner.Wait();
  }

  /** `Create` is `Update`. */
  method Create(runner: AnsibleRunner) returns (details: map<string, string>, err: Option<Error>)
    modifies runner
    ensures !runner.checkMode
    ensures runner.calls == old(runner.calls) + [RunnerCall.EnableCheckMode(false), RunnerCall.Run] +
                            (if runner.runErr.Some? then [] else [RunnerCall.Wait])
    ensures err == if runner.runErr.Some? then runner.runErr else runner.waitErr
    ensures details == map[]
  {
    details, err := Update(runner);
  }

  /** `Delete`: mark the resource Deleting, write the `absent` state, run
      and wait; a failed write means no run. */
  method Delete(cr: ManagedRun, runner: AnsibleRunner) returns (err: Option<Error>)
    modifies cr, runner
    ensures cr.conditions == old(cr.conditions)[ReadyCondition := ReasonDeleting]
    ensures cr.deletionPolicy == old(cr.deletionPolicy) && cr.annotations == old(cr.annotations)
    ensures cr.lastApplied == old(cr.lastApplied)
    ensures runner.checkMode == old(runner.checkMode)
    ensures runner.calls == old(runner.calls) + ApplyCalls(runner, StateVar(cr.name, "absent"))
    ensures err == ApplyError(runner)
  {
    cr.conditions := cr.conditions[ReadyCondition := ReasonDeleting];
    err := Apply(runner, StateVar(cr.name, "absent"));
  }

  /** Two observations in a row under ObserveAndDelete: whatever the first
      one ran and however that run ended, once the store accepted the
      update the second finds the resource up to date and calls nothing. */
  method ObserveTwice(cr: ManagedRun, runner: AnsibleRunner, kube: Kube)
    returns (first: Observation, second: Observation, callsAfterFirst: seq<RunnerCall>)
    requires runner.policyName == "ObserveAndDelete" && !cr.deleted
    requires kube.lookup.Stored? && kube.updateErr.None?
    requires GetLastAppliedParameters(kube.lookup.lastApplied).Success?
    modifies cr, runner, kube
    ensures second == Observation(true, true)
    ensures runner.calls == callsAfterFirst
  {
    var err;
    first, err := Observe(cr, runner, kube);
    callsAfterFirst := runner.calls;
    assert kube.lookup == Stored(Some(Marshalled(cr.forProvider)));
    second, err := Observe(cr, runner, kube);
  }

  // ----- addBehaviorVars -----

  datatype Var = Var(key: string, value: string)

  /** `addBehaviorVars`: the provider config's vars as a map; a later var
      overrides an earlier one with the same key. */
  method AddBehaviorVars(vars: seq<Var>) returns (m: map<string, string>)
    ensures forall k :: k in m <==> exists i :: 0 <= i < |vars| && vars[i].key == k
    ensures forall i :: 0 <= i < |vars| && (forall j :: i < j < |vars| ==> vars[j].key != vars[i].key) ==>
      m[vars[i].key] == vars[i].value
  {
    m := map[];
    for n := 0 to |vars|
      invariant forall k :: k in m <==> exists i :: 0 <= i < n && vars[i].key == k
      invariant forall i :: 0 <= i < n && (forall j :: i < j < n ==> vars[j].key != vars[i].key) ==>
        m[vars[i].key] == vars[i].value
    {
      m := m[vars[n].key := vars[n].value];
    }
  }

  // ----- Connect: inventory -----

  /** The inventory text gathered from the inventory sources (what the
      credential extractor gave for each), one line each, the first failing
      source aborting. */
  function SourcesText(sources: seq<Result<string, Error>>): (r: Result<string, Error>)
    ensures r.Success? ==> |r.value| >= |sources|
    ensures r.Failure? <==> exists i :: 0 <= i < |sources| && sources[i].Failure?
    decreases |sources|
  {
    if sources == [] then Success("")
    else
      var init := sources[..|sources| - 1];
      assert forall i :: 0 <= i < |init| ==> init[i] == sources[i];
      match SourcesText(init)
      case Failure(e) => Failure(e)
      case Success(text) =>
        match sources[|sources| - 1]
        case Failure(e) => Failure(Wrapped(ErrGetInventory, e))
        case Success(data) => Success(text + data + "\n")
  }

  /** Each source contributes its own text followed by a newline: one
      source gives its line, and the text of a concatenation is the text of
      its first part followed by that of its second. */
  lemma {:induction false} SourcesTextAppend(a: seq<Result<string, Error>>, b: seq<Result<string, Error>>)
    requires SourcesText(a).Success? && SourcesText(b).Success?
    ensures SourcesText(a + b) == Success(SourcesText(a).value + SourcesText(b).value)
    decreases |b|
  {
    if b == [] {
      assert a + b == a;
      assert SourcesText(a).value + "" == SourcesText(a).value;
    } else {
      var init, last := b[..|b| - 1], b[|b| - 1];
      assert (a + b)[..|a + b| - 1] == a + init;
      assert (a + b)[|a + b| - 1] == last;
      SourcesTextAppend(a, init);
      var ta, ti := SourcesText(a).value, SourcesText(init).value;
      assert ta + ti + last.value + "\n" == ta + (ti + last.value + "\n");
    }
  }

  lemma SourcesTextOne(text: string)
    ensures SourcesText([Success(text)]) == Success(text + "\n")
  {
    var one: seq<Result<string, Error>> := [Success(text)];
    assert one[..0] == [];
    assert SourcesText(one[..0]) == Success("");
    assert "" + text + "\n" == text + "\n";
  }

  /** The first failing source decides the error. */
  lemma {:induction false} SourcesTextFirstError(sources: seq<Result<string, Error>>, i: nat)
    requires i < |sources| && sources[i].Failure?
    requires forall j :: 0 <= j < i ==> sources[j].Success?
    ensures SourcesText(sources) == Failure(Wrapped(ErrGetInventory, sources[i].error))
    decreases |sources|
  {
    if i < |sources| - 1 {
      var init := sources[..|sources| - 1];
      assert init[i] == sources[i];
      assert forall j :: 0 <= j < i ==> init[j] == sources[j];
      SourcesTextFirstError(init, i);
    } else {
      var init := sources[..|sources| - 1];
      assert forall j :: 0 <= j < |init| ==> init[j] == sources[j];
    }
  }

  datatype HostsFile = HostsFile(content: string, perm: int)

  /** The inventory part of `Connect`: gather the sources and the inline
      inventory, one line each, and write the hosts file only when there is
      something in it. */
  method Inventory(sources: seq<Result<string, Error>>, inline: Option<string>, executable: bool)
    returns (r: Result<Option<HostsFile>, Error>)
    ensures r.Failure? <==> SourcesText(sources).Failure?
    ensures r.Failure? ==> r.error == SourcesText(sources).error
    ensures r.Success? ==> (r.value.Some? <==> |sources| > 0 || inline.Some?)
    ensures r.Success? && r.value.Some? ==>
      r.value.value.perm == (if executable then 448 else 384) &&
      r.value.value.content == SourcesText(sources).value + (if inline.Some? then inline.value + "\n" else "")
  {
    var inventoryPerm := 384;  // 0600
    if executable {
      inventoryPerm := 448;    // 0700
    }
    var buff := "";
    for i := 0 to |sources|
      invariant SourcesText(sources[..i]) == Success(buff)
    {
      var init := sources[..i + 1][..i];
      assert init == sources[..i];
      if sources[i].Failure? {
        assert SourcesText(sources[..i + 1]).Failure?;
        assert sources[..i + 1][i] == sources[i];
        SourcesTextFirstErrorAt(sources, i);
        return Failure(Wrapped(ErrGetInventory, sources[i].error));
      }
      buff := buff + sources[i].value + "\n";
    }
    assert sources[..|sources|] == sources;
    if inline.Some? {
      buff := buff + inline.value + "\n";
    }
    if |buff| != 0 {
      return Success(Some(HostsFile(buff, inventoryPerm)));
    }
    return Success(None);
  }

  /** A failure at `i` after successful sources is the failure of the
      whole list. */
  lemma SourcesTextFirstErrorAt(sources: seq<Result<string, Error>>, i: nat)
    requires i < |sources| && sources[i].Failure?
    requires SourcesText(sources[..i]).Success?
    ensures SourcesText(sources) == Failure(Wrapped(ErrGetInventory, sources[i].error))
  {
    forall j | 0 <= j < i ensures sources[j].Success? {
      var prefix := sources[..i];
      assert prefix[j] == sources[j];
    }
    SourcesTextFirstError(sources, i);
  }

  // ----- Connect: requirements -----

  /** The requirements file and the ansible-galaxy installs to run, in
      order. */
  datatype Requirements = Requirements(file: string, installs: seq<string>)

  /** The requirements part of `Connect`, from the provider config's
      requirements and the YAML document of the resource's roles ("" when
      it has none): nothing to do without either; otherwise the file holds
      both, joined by a newline, and collections are installed iff the
      config has requirements, before the roles, which are always
      installed. */
  method PlanRequirements(requirements: Option<string>, rolesDoc: string) returns (plan: Option<Requirements>)
    ensures plan.None? <==> requirements.None? && rolesDoc == ""
    ensures plan.Some? ==> plan.value.installs == if requirements.Some? then ["collection", "role"] else ["role"]
    ensures plan.Some? ==> (plan.value.file ==
      if requirements.Some? && rolesDoc != "" then requirements.value + "\n" + rolesDoc
      else if requirements.Some? then requirements.value
      else rolesDoc)
  {
    if requirements.None? && rolesDoc == "" {
      return None;
    }
    var installCollections, installRoles := false, false;
    var reqSlice: seq<string> := [];
    if requirements.Some? {
      reqSlice := reqSlice + [requirements.value];
      installCollections := true;
      installRoles := true;
    }
    if rolesDoc != "" {
      reqSlice := reqSlice + [rolesDoc];
      installRoles := true;
    }
    var req := Text.Join(reqSlice, "\n");
    var installs: seq<string> := [];
    if installCollections {
      installs := installs + ["collection"];
    }
    if installRoles {
      installs := installs + ["role"];
    }
    plan := Some(Requirements(req, installs));
  }

  /** Run the planned installs in order (`failures` says which
      requirements types ansible-galaxy fails on); the first failure stops
      the rest and is returned. */
  method Install(installs: seq<string>, failures: map<string, Error>) returns (ran: seq<string>, err: Option<Error>)
    ensures ran <= installs
    ensures err.None? <==> ran == installs && forall i :: 0 <= i < |installs| ==> installs[i] !in failures
    ensures err.Some? ==> |ran| > 0 && ran[|ran| - 1] in failures && err == Some(failures[ran[|ran| - 1]])
    ensures forall i :: 0 <= i < |ran| - 1 ==> ran[i] !in failures
  {
    ran := [];
    for i := 0 to |installs|
      invariant ran == installs[..i]
      invariant forall j :: 0 <= j < i ==> installs[j] !in failures
    {
      ran := ran + [installs[i]];
      if installs[i] in failures {
        return ran, Some(failures[installs[i]]);
      }
    }
    err := None;
  }
}
