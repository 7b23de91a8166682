/**
 * The tekton_create_pipelinerun tool: creates a PipelineRun of a named
 * Pipeline, with string parameters and workspace bindings taken from the
 * input, owned by the AgentRun the agent works for.
 *
 * The Tekton API server's create call is a parameter (`Creator`): it gives
 * the created object or the error.
 */
module CreatePipelineRunTool {
  import opened Wrappers
  import opened Values
  import opened Kube
  import AgentLoop

  const ToolName := "tekton_create_pipelinerun"

  /** A PipelineRun parameter; every value the tool sets is a string. */
  datatype Param = Param(name: string, value: string)

  /** A workspace binding: a claim name when given, and an empty directory when asked for. */
  datatype WorkspaceBinding = WorkspaceBinding(name: string, pvcClaim: Option<string>, emptyDir: bool)

  datatype PipelineRun = PipelineRun(
    name: string,
    namespace: string,
    ownerReferences: seq<OwnerReference>,
    pipelineRef: string,
    params: seq<Param>,
    workspaces: seq<WorkspaceBinding>)

  type Creator = PipelineRun -> Result<PipelineRun>

  /** One element of the `params` array. */
  function ParamOf(v: Value): (r: Result<Param>)
    ensures !v.Obj? ==> r == Err("each param must be an object with name and value")
    ensures v.Obj? && GetString(v.fields, "name").None? ==> r == Err("param name is required")
    ensures v.Obj? && GetString(v.fields, "name").Some? && GetString(v.fields, "value").None? ==>
      r == Err("param value must be a string")
    ensures r.Ok? <==> v.Obj? && GetString(v.fields, "name").Some? && GetString(v.fields, "value").Some?
    ensures r.Ok? ==> r.value == Param(v.fields["name"].s, v.fields["value"].s)
  {
    if !v.Obj? then Err("each param must be an object with name and value")
    else match GetString(v.fields, "name")
      case None => Err("param name is required")
      case Some(name) =>
        match GetString(v.fields, "value")
        case None => Err("param value must be a string")
        case Some(value) => Ok(Param(name, value))
  }

  /** One element of the `workspaces` array. */
  function WorkspaceOf(v: Value): (r: Result<WorkspaceBinding>)
    ensures !v.Obj? ==> r == Err("each workspace must be an object")
    ensures v.Obj? && GetString(v.fields, "name").None? ==> r == Err("workspace name is required")
    ensures r.Ok? <==> v.Obj? && GetString(v.fields, "name").Some?
    ensures r.Ok? ==>
      && r.value.name == v.fields["name"].s
      && r.value.pvcClaim == GetString(v.fields, "pvcName")
      && (r.value.emptyDir <==> GetBool(v.fields, "emptyDir") == Some(true))
  {
    if !v.Obj? then Err("each workspace must be an object")
    else match GetString(v.fields, "name")
      case None => Err("workspace name is required")
      case Some(name) =>
        Ok(WorkspaceBinding(name, GetString(v.fields, "pvcName"), GetBool(v.fields, "emptyDir") == Some(true)))
  }

  /** Decodes every element in order; the first element that fails gives the error. */
  function DecodeAll<T>(items: seq<Value>, decode: Value -> Result<T>): Result<seq<T>>
  {
    if items == [] then Ok([])
    else
      match DecodeAll(items[..|items| - 1], decode)
      case Err(e) => Err(e)
      case Ok(done) =>
        match decode(items[|items| - 1])
        case Err(e) => Err(e)
        case Ok(x) => Ok(done + [x])
  }

  /** Once a prefix fails, every longer prefix fails with the same error. */
  lemma {:induction false} DecodeErrorPersists<T>(items: seq<Value>, decode: Value -> Result<T>, i: nat)
    requires i <= |items| && DecodeAll(items[..i], decode).Err?
    ensures DecodeAll(items, decode) == DecodeAll(items[..i], decode)
    decreases |items| - i
  {
    if i < |items| {
      assert items[..i + 1][..i] == items[..i];
      DecodeErrorPersists(items, decode, i + 1);
    } else {
      assert items[..i] == items;
    }
  }

  /**
   * Decoding succeeds exactly when every element decodes, and then gives
   * each element's value in order; otherwise the error is that of the first
   * element that fails.
   */
  lemma {:induction false} DecodeAllMeaning<T>(items: seq<Value>, decode: Value -> Result<T>)
    ensures DecodeAll(items, decode).Ok? <==> forall i :: 0 <= i < |items| ==> decode(items[i]).Ok?
    ensures DecodeAll(items, decode).Ok? ==>
      && |DecodeAll(items, decode).value| == |items|
      && forall i :: 0 <= i < |items| ==> DecodeAll(items, decode).value[i] == decode(items[i]).value
    ensures DecodeAll(items, decode).Err? ==>
      exists i :: 0 <= i < |items| && decode(items[i]).Err?
        && DecodeAll(items, decode).error == decode(items[i]).error
        && forall j :: 0 <= j < i ==> decode(items[j]).Ok?
  {
    if items != [] {
      var init := items[..|items| - 1];
      var n := |items| - 1;
      DecodeAllMeaning(init, decode);
      assert forall i :: 0 <= i < n ==> init[i] == items[i];
      if DecodeAll(init, decode).Err? {
        var i :| 0 <= i < n && decode(init[i]).Err?
          && DecodeAll(init, decode).error == decode(init[i]).error
          && forall j :: 0 <= j < i ==> decode(init[j]).Ok?;
        assert decode(items[i]).Err?;
      } else if decode(items[n]).Err? {
        assert DecodeAll(items, decode).error == decode(items[n]).error;
      }
    }
  }

  /**
   * `params` or `workspaces`, when present, must be an array; a JSON null
   * or any other value is an error. An absent key gives no elements.
   */
  function DecodeField<T>(input: Input, key: string, notArray: string, decode: Value -> Result<T>): (r: Result<seq<T>>)
    ensures key !in input ==> r == Ok([])
    ensures key in input && !input[key].Arr? ==> r == Err(notArray)
    ensures key in input && input[key].Arr? ==> r == DecodeAll(input[key].items, decode)
  {
    if key !in input then Ok([])
    else if !input[key].Arr? then Err(notArray)
    else DecodeAll(input[key].items, decode)
  }

  /** The tool, owned by one AgentRun (when both its name and uid are known), over the cluster's create call. */
  datatype CreatePipelineRun = CreatePipelineRun(agentRunName: string, agentRunUid: string, create: Creator)
  {
    /** The owner references of every PipelineRun the tool creates. */
    function Owners(): (refs: seq<OwnerReference>)
      ensures agentRunName != "" && agentRunUid != "" ==>
        refs == [OwnerReference(GroupVersion, KindAgentRun, agentRunName, agentRunUid, false, false)]
      ensures agentRunName == "" || agentRunUid == "" ==> refs == []
    {
      if agentRunName != "" && agentRunUid != "" then
        [OwnerReference(GroupVersion, KindAgentRun, agentRunName, agentRunUid, false, false)]
      else []
    }

    /**
     * The PipelineRun an input asks for, or the first thing wrong with the
     * input: namespace, name and pipeline name in that order, then the
     * parameters, then the workspaces.
     */
    function Planned(input: Input): (r: Result<PipelineRun>)
      ensures RequiredString(input, "namespace").None? ==> r == Err("namespace is required")
      ensures RequiredString(input, "namespace").Some? && RequiredString(input, "name").None? ==>
        r == Err("name is required")
      ensures RequiredString(input, "namespace").Some? && RequiredString(input, "name").Some?
              && RequiredString(input, "pipelineName").None? ==>
        r == Err("pipelineName is required")
      ensures r.Ok? ==>
        && r.value.namespace == input["namespace"].s && r.value.name == input["name"].s
        && r.value.pipelineRef == input["pipelineName"].s
        && r.value.ownerReferences == Owners()
        && Ok(r.value.params) == DecodeField(input, "params", "params must be an array", ParamOf)
        && Ok(r.value.workspaces) == DecodeField(input, "workspaces", "workspaces must be an array", WorkspaceOf)
    {
      match RequiredString(input, "namespace")
      case None => Err("namespace is required")
      case Some(namespace) =>
        match RequiredString(input, "name")
        case None => Err("name is required")
        case Some(name) =>
          match RequiredString(input, "pipelineName")
          case None => Err("pipelineName is required")
          case Some(pipelineName) =>
            match DecodeField(input, "params", "params must be an array", ParamOf)
            case Err(e) => Err(e)
            case Ok(params) =>
              match DecodeField(input, "workspaces", "workspaces must be an array", WorkspaceOf)
              case Err(e) => Err(e)
              case Ok(workspaces) => Ok(PipelineRun(name, namespace, Owners(), pipelineName, params, workspaces))
    }

    /** Decodes one array element by element, stopping at the first element that fails. */
    static method DecodeEach<T>(items: seq<Value>, decode: Value -> Result<T>) returns (r: Result<seq<T>>)
      ensures r == DecodeAll(items, decode)
    {
      var done: seq<T> := [];
      for i := 0 to |items|
        invariant DecodeAll(items[..i], decode) == Ok(done)
      {
        assert items[..i + 1][..i] == items[..i];
        var x := decode(items[i]);
        if x.Err? {
          DecodeErrorPersists(items, decode, i + 1);
          return Err(x.error);
        }
        done := done + [x.value];
      }
      assert items[..|items|] == items;
      return Ok(done);
    }

    /**
     * Builds the PipelineRun the input asks for and submits it: an input
     * error is returned as it is, a refused create is reported, and a
     * created run is named in the success message.
     */
    method Execute(input: Input) returns (r: Result<string>)
      ensures Planned(input).Err? ==> r == Err(Planned(input).error)
      ensures Planned(input).Ok? ==>
        match create(Planned(input).value)
        case Err(e) => r == Err("failed to create PipelineRun: " + e)
        case Ok(created) => r == Ok("PipelineRun " + created.namespace + "/" + created.name + " created successfully")
    {
      var namespace := RequiredString(input, "namespace");
      if namespace.None? {
        return Err("namespace is required");
      }
      var name := RequiredString(input, "name");
      if name.None? {
        return Err("name is required");
      }
      var pipelineName := RequiredString(input, "pipelineName");
      if pipelineName.None? {
        return Err("pipelineName is required");
      }
      var pr := PipelineRun(name.value, namespace.value, Owners(), pipelineName.value, [], []);
      if "params" in input {
        if !input["params"].Arr? {
          return Err("params must be an array");
        }
        var params := DecodeEach(input["params"].items, ParamOf);
        if params.Err? {
          return Err(params.error);
        }
        pr := pr.(params := params.value);
      }
      if "workspaces" in input {
        if !input["workspaces"].Arr? {
          return Err("workspaces must be an array");
        }
        var workspaces := DecodeEach(input["workspaces"].items, WorkspaceOf);
        if workspaces.Err? {
          return Err(workspaces.error);
        }
        pr := pr.(workspaces := workspaces.value);
      }
      assert Planned(input) == Ok(pr);
      var created := create(pr);
      if created.Err? {
        return Err("failed to create PipelineRun: " + created.error);
      }
      return Ok("PipelineRun " + created.value.namespace + "/" + created.value.name + " created successfully");
    }
  }

  /** The input element that asks for `p`. */
  function ParamInput(p: Param): Value
  {
    Obj(map["name" := Str(p.name), "value" := Str(p.value)])
  }

  /** The input element that asks for `w`. */
  function WorkspaceInput(w: WorkspaceBinding): Value
  {
    var base := map["name" := Str(w.name), "emptyDir" := Bool(w.emptyDir)];
    Obj(match w.pvcClaim case Some(c) => base["pvcName" := Str(c)] case None => base)
  }

  function ParamInputs(ps: seq<Param>): (items: seq<Value>)
    ensures |items| == |ps| && forall i :: 0 <= i < |ps| ==> items[i] == ParamInput(ps[i])
  {
    seq(|ps|, i requires 0 <= i < |ps| => ParamInput(ps[i]))
  }

  function WorkspaceInputs(ws: seq<WorkspaceBinding>): (items: seq<Value>)
    ensures |items| == |ws| && forall i :: 0 <= i < |ws| ==> items[i] == WorkspaceInput(ws[i])
  {
    seq(|ws|, i requires 0 <= i < |ws| => WorkspaceInput(ws[i]))
  }

  /** The input that asks for exactly `pr`. */
  function InputOf(pr: PipelineRun): Input
  {
    map["namespace" := Str(pr.namespace), "name" := Str(pr.name), "pipelineName" := Str(pr.pipelineRef),
        "params" := Arr(ParamInputs(pr.params)), "workspaces" := Arr(WorkspaceInputs(pr.workspaces))]
  }

  lemma DecodeParamInputs(ps: seq<Param>)
    ensures DecodeAll(ParamInputs(ps), ParamOf) == Ok(ps)
  {
    var items := ParamInputs(ps);
    forall i | 0 <= i < |items|
      ensures ParamOf(items[i]) == Ok(ps[i])
    {
      assert GetString(items[i].fields, "name") == Some(ps[i].name);
    }
    DecodeAllMeaning(items, ParamOf);
    assert DecodeAll(items, ParamOf).value == ps;
  }

  lemma DecodeWorkspaceInputs(ws: seq<WorkspaceBinding>)
    ensures DecodeAll(WorkspaceInputs(ws), WorkspaceOf) == Ok(ws)
  {
    var items := WorkspaceInputs(ws);
    forall i | 0 <= i < |items|
      ensures WorkspaceOf(items[i]) == Ok(ws[i])
    {
      var f := items[i].fields;
      assert GetString(f, "name") == Some(ws[i].name);
      assert GetBool(f, "emptyDir") == Some(ws[i].emptyDir);
      if ws[i].pvcClaim.Some? {
        assert GetString(f, "pvcName") == ws[i].pvcClaim;
      } else {
        assert "pvcName" !in f;
      }
    }
    DecodeAllMeaning(items, WorkspaceOf);
    assert DecodeAll(items, WorkspaceOf).value == ws;
  }

  /**
   * Every PipelineRun the tool can make is made from some input: for a run
   * with the tool's owner references and non-empty names, the input built
   * from it plans exactly that run.
   */
  lemma PlannedRoundTrip(tool: CreatePipelineRun, pr: PipelineRun)
    requires pr.namespace != "" && pr.name != "" && pr.pipelineRef != ""
    requires pr.ownerReferences == tool.Owners()
    ensures tool.Planned(InputOf(pr)) == Ok(pr)
  {
    var input := InputOf(pr);
    assert input["params"] == Arr(ParamInputs(pr.params));
    assert input["workspaces"] == Arr(WorkspaceInputs(pr.workspaces));
    DecodeParamInputs(pr.params);
    DecodeWorkspaceInputs(pr.workspaces);
    assert DecodeField(input, "params", "params must be an array", ParamOf) == Ok(pr.params);
    assert DecodeField(input, "workspaces", "workspaces must be an array", WorkspaceOf) == Ok(pr.workspaces);
    assert RequiredString(input, "namespace") == Some(pr.namespace);
    assert RequiredString(input, "name") == Some(pr.name);
    assert RequiredString(input, "pipelineName") == Some(pr.pipelineRef);
  }

  /**
   * The parameters submitted are exactly the input's, one for one and in
   * order; a single bad element rejects the whole input with the first
   * element's error.
   */
  lemma ParamsAreTheInputs(tool: CreatePipelineRun, input: Input)
    requires tool.Planned(input).Ok? && "params" in input
    ensures input["params"].Arr?
    ensures var items := input["params"].items; var ps := tool.Planned(input).value.params;
      && |ps| == |items|
      && forall i :: 0 <= i < |items| ==>
           && items[i].Obj?
           && GetString(items[i].fields, "name") == Some(ps[i].name)
           && GetString(items[i].fields, "value") == Some(ps[i].value)
  {
    DecodeAllMeaning(input["params"].items, ParamOf);
  }

  /** Only a run created on behalf of a known AgentRun is owned, and then by that AgentRun alone, without control. */
  lemma OwnedOnlyWhenKnown(tool: CreatePipelineRun, input: Input)
    requires tool.Planned(input).Ok?
    ensures var refs := tool.Planned(input).value.ownerReferences;
      && (|refs| == 1 <==> tool.agentRunName != "" && tool.agentRunUid != "")
      && forall i :: 0 <= i < |refs| ==>
           refs[i].kind == KindAgentRun && refs[i].name == tool.agentRunName && refs[i].uid == tool.agentRunUid
           && !refs[i].controller
  {
  }
}
