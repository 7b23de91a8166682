/**
 * The agent pod of a run: one hardened container running the agent image,
 * identified to the agent through environment variables, with its prompts
 * mounted read-only, a writable scratch directory and the API-key secret.
 */
module PodBuilder {
  import opened Wrappers
  import opened V1alpha1
  import opened Kube

  datatype EnvVar = EnvVar(name: string, value: string)

  datatype VolumeMount = VolumeMount(name: string, mountPath: string, readOnly: bool)

  datatype KeyToPath = KeyToPath(key: string, path: string)

  datatype VolumeSource =
    | ConfigMapSource(configMap: string, items: seq<KeyToPath>)
    | EmptyDirSource
    | SecretSource(secretName: string)

  datatype Volume = Volume(name: string, source: VolumeSource)

  const SeccompRuntimeDefault := "RuntimeDefault"

  datatype PodSecurityContext = PodSecurityContext(runAsNonRoot: bool, runAsUser: int, fsGroup: int, seccompProfile: string)

  datatype SecurityContext = SecurityContext(
    allowPrivilegeEscalation: bool,
    readOnlyRootFilesystem: bool,
    runAsNonRoot: bool,
    dropCapabilities: seq<string>,
    seccompProfile: string)

  datatype Container = Container(
    name: string,
    image: string,
    imagePullPolicy: string,
    securityContext: SecurityContext,
    volumeMounts: seq<VolumeMount>,
    env: seq<EnvVar>)

  datatype PodSpec = PodSpec(
    serviceAccountName: string,
    restartPolicy: string,
    securityContext: PodSecurityContext,
    containers: seq<Container>,
    volumes: seq<Volume>)

  datatype Pod = Pod(meta: Meta, spec: PodSpec)

  /** The non-root user and group the agent runs as. */
  const NonRootId := 65532

  /** The pod's name, derived from the run's name alone. */
  function PodName(run: ObjectMeta): (n: string)
    ensures |n| == |run.name| + 6
    ensures n[..|run.name|] == run.name && n[|run.name|..] == "-agent"
  {
    run.name + "-agent"
  }

  /** The value of the first variable named `name`, if any. */
  function Lookup(env: seq<EnvVar>, name: string): (v: Option<string>)
    ensures v.Some? <==> exists i :: 0 <= i < |env| && env[i].name == name
  {
    if env == [] then None
    else if env[0].name == name then Some(env[0].value)
    else Lookup(env[1..], name)
  }

  /** Lookup finds the first variable of that name. */
  lemma {:induction false} LookupFirst(env: seq<EnvVar>, i: nat, name: string)
    requires i < |env| && env[i].name == name
    requires forall j :: 0 <= j < i ==> env[j].name != name
    ensures Lookup(env, name) == Some(env[i].value)
  {
    if i > 0 {
      LookupFirst(env[1..], i - 1, name);
    }
  }

  /** The pod is hardened: non-root, no privilege escalation, a read-only root, no capabilities, default seccomp. */
  predicate Hardened(pod: Pod)
  {
    && pod.spec.securityContext.runAsNonRoot
    && pod.spec.securityContext.runAsUser != 0
    && pod.spec.securityContext.seccompProfile == SeccompRuntimeDefault
    && forall i :: 0 <= i < |pod.spec.containers| ==>
         var sc := pod.spec.containers[i].securityContext;
         && !sc.allowPrivilegeEscalation && sc.readOnlyRootFilesystem && sc.runAsNonRoot
         && sc.dropCapabilities == ["ALL"] && sc.seccompProfile == SeccompRuntimeDefault
  }

  /** Every mount of every container names a volume of the pod. */
  predicate MountsResolve(pod: Pod)
  {
    forall i, j :: 0 <= i < |pod.spec.containers| && 0 <= j < |pod.spec.containers[i].volumeMounts| ==>
      exists k :: 0 <= k < |pod.spec.volumes| && pod.spec.volumes[k].name == pod.spec.containers[i].volumeMounts[j].name
  }

  /** No two volumes of the pod share a name, so each mount names exactly one of them. */
  predicate VolumeNamesUnique(pod: Pod)
  {
    forall i, j :: 0 <= i < j < |pod.spec.volumes| ==> pod.spec.volumes[i].name != pod.spec.volumes[j].name
  }

  /** Builds agent pods with a fixed image. */
  datatype Builder = Builder(image: string)
  {
    function PodSecurity(): (ctx: PodSecurityContext)
      ensures ctx.runAsNonRoot && ctx.runAsUser == NonRootId && ctx.fsGroup == NonRootId
      ensures ctx.seccompProfile == SeccompRuntimeDefault
    {
      PodSecurityContext(true, NonRootId, NonRootId, SeccompRuntimeDefault)
    }

    function ContainerSecurity(): (ctx: SecurityContext)
      ensures !ctx.allowPrivilegeEscalation && ctx.readOnlyRootFilesystem && ctx.runAsNonRoot
      ensures ctx.dropCapabilities == ["ALL"] && ctx.seccompProfile == SeccompRuntimeDefault
    {
      SecurityContext(false, true, true, ["ALL"], SeccompRuntimeDefault)
    }

    /** Prompts read-only, scratch data writable, secrets read-only. */
    function VolumeMounts(): (ms: seq<VolumeMount>)
      ensures |ms| == 3
      ensures forall i :: 0 <= i < |ms| ==> (!ms[i].readOnly <==> ms[i].name == "data")
      ensures ms[0] == VolumeMount("config", "/workspace/config", true)
      ensures ms[1] == VolumeMount("data", "/workspace/data", false)
      ensures ms[2] == VolumeMount("secrets", "/workspace/secrets", true)
    {
      [ VolumeMount("config", "/workspace/config", true),
        VolumeMount("data", "/workspace/data", false),
        VolumeMount("secrets", "/workspace/secrets", true) ]
    }

    /** The prompts config map, an empty directory, and the API-key secret; the config is not consulted. */
    function Volumes(config: AgentConfigSpec): (vs: seq<Volume>)
      ensures |vs| == 3
      ensures vs[0] == Volume("config", ConfigMapSource("agent-prompts",
                        [KeyToPath("system.txt", "prompts/system.txt"),
                         KeyToPath("planner.txt", "prompts/planner.txt"),
                         KeyToPath("reflector.txt", "prompts/reflector.txt")]))
      ensures vs[1] == Volume("data", EmptyDirSource)
      ensures vs[2] == Volume("secrets", SecretSource("claude-api-key"))
    {
      [ Volume("config", ConfigMapSource("agent-prompts",
          [KeyToPath("system.txt", "prompts/system.txt"),
           KeyToPath("planner.txt", "prompts/planner.txt"),
           KeyToPath("reflector.txt", "prompts/reflector.txt")])),
        Volume("data", EmptyDirSource),
        Volume("secrets", SecretSource("claude-api-key")) ]
    }

    /** What the agent learns about its run, in this order. */
    function Env(run: ObjectMeta, spec: AgentRunSpec, configName: string, config: AgentConfigSpec): (env: seq<EnvVar>)
      ensures |env| == 6
      ensures forall i, j :: 0 <= i < j < |env| ==> env[i].name != env[j].name
    {
      assert "AGENTRUN_NAME"[9] != "AGENTRUN_GOAL"[9];
      assert "AGENTRUN_UID"[0] != "LLM_PROVIDER"[0];
      [ EnvVar("AGENTRUN_NAME", run.name),
        EnvVar("AGENTRUN_UID", run.uid),
        EnvVar("AGENTRUN_NAMESPACE", run.namespace),
        EnvVar("AGENTRUN_GOAL", spec.goal),
        EnvVar("AGENTCONFIG_NAME", configName),
        EnvVar("LLM_PROVIDER", config.provider) ]
    }

    /**
     * The agent pod of `run` under the config named `configName`. Building
     * never fails.
     */
    function Build(run: ObjectMeta, spec: AgentRunSpec, configName: string, config: AgentConfigSpec): (pod: Pod)
      ensures pod.meta.name == PodName(run) && pod.meta.namespace == run.namespace
      ensures ControlledBy(pod.meta, run)
      ensures pod.meta.labels == map[LabelAgentRun := run.name, LabelConfig := configName,
                                     LabelComponent := "agent-runtime", LabelManagedBy := ManagedBy]
      ensures pod.spec.serviceAccountName == config.serviceAccount
      ensures pod.spec.restartPolicy == "Never"
      ensures |pod.spec.containers| == 1
      ensures pod.spec.containers[0].name == "agent" && pod.spec.containers[0].image == image
      ensures pod.spec.containers[0].imagePullPolicy == "IfNotPresent"
      ensures Hardened(pod) && MountsResolve(pod) && VolumeNamesUnique(pod)
      ensures pod.spec.volumes == Volumes(config) && pod.spec.containers[0].volumeMounts == VolumeMounts()
      ensures pod.spec.containers[0].env == Env(run, spec, configName, config)
    {
      var pod := Pod(
        Meta(PodName(run), run.namespace,
             map[LabelAgentRun := run.name, LabelConfig := configName,
                 LabelComponent := "agent-runtime", LabelManagedBy := ManagedBy],
             [ControllerRef(run)]),
        PodSpec(config.serviceAccount, "Never", PodSecurity(),
                [Container("agent", image, "IfNotPresent", ContainerSecurity(), VolumeMounts(),
                           Env(run, spec, configName, config))],
                Volumes(config)));
      assert VolumeNamesUnique(pod) by {
        assert pod.spec.volumes[0].name[0] == 'c' && pod.spec.volumes[1].name[0] == 'd' && pod.spec.volumes[2].name[0] == 's';
      }
      assert MountsResolve(pod) by {
        forall i, j | 0 <= i < |pod.spec.containers| && 0 <= j < |pod.spec.containers[i].volumeMounts|
          ensures exists k :: 0 <= k < |pod.spec.volumes| && pod.spec.volumes[k].name == pod.spec.containers[i].volumeMounts[j].name
        {
          assert pod.spec.volumes[j].name == pod.spec.containers[i].volumeMounts[j].name;
        }
      }
      pod
    }
  }

  /** The agent finds its run's identity, goal, config and provider in its environment. */
  lemma EnvIdentifiesRun(b: Builder, run: ObjectMeta, spec: AgentRunSpec, configName: string, config: AgentConfigSpec)
    ensures var env := b.Env(run, spec, configName, config);
      && Lookup(env, "AGENTRUN_NAME") == Some(run.name)
      && Lookup(env, "AGENTRUN_UID") == Some(run.uid)
      && Lookup(env, "AGENTRUN_NAMESPACE") == Some(run.namespace)
      && Lookup(env, "AGENTRUN_GOAL") == Some(spec.goal)
      && Lookup(env, "AGENTCONFIG_NAME") == Some(configName)
      && Lookup(env, "LLM_PROVIDER") == Some(config.provider)
  {
    var env := b.Env(run, spec, configName, config);
    LookupFirst(env, 0, "AGENTRUN_NAME");
    LookupFirst(env, 1, "AGENTRUN_UID");
    LookupFirst(env, 2, "AGENTRUN_NAMESPACE");
    assert env[1].name[9] != "AGENTRUN_GOAL"[9];
    LookupFirst(env, 3, "AGENTRUN_GOAL");
    LookupFirst(env, 4, "AGENTCONFIG_NAME");
    assert env[1].name[0] != "LLM_PROVIDER"[0];
    LookupFirst(env, 5, "LLM_PROVIDER");
  }

  /**
   * The only writable place in the agent pod is the scratch directory: the
   * root filesystem is read-only and every other mount is read-only.
   */
  lemma OnlyScratchIsWritable(b: Builder, run: ObjectMeta, spec: AgentRunSpec, configName: string,
                              config: AgentConfigSpec, m: VolumeMount)
    requires m in b.Build(run, spec, configName, config).spec.containers[0].volumeMounts
    ensures !m.readOnly ==> m == VolumeMount("data", "/workspace/data", false)
    ensures !m.readOnly ==> b.Build(run, spec, configName, config).spec.volumes[1] == Volume("data", EmptyDirSource)
  {
  }
}
