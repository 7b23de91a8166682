/**
 * The agent.tekton.dev/v1alpha1 API: the AgentRun and AgentConfig resources,
 * their admission-time defaulting and validation, and the AgentRun phases.
 */
module V1alpha1 {
  import opened Wrappers

  const PhasePending := "Pending"
  const PhasePreHooks := "PreHooks"
  const PhasePlanning := "Planning"
  const PhaseActing := "Acting"
  const PhaseReflecting := "Reflecting"
  const PhasePostHooks := "PostHooks"
  const PhaseSucceeded := "Succeeded"
  const PhaseFailed := "Failed"

  /** The eight phases an AgentRun's status may name. */
  const Phases := [PhasePending, PhasePreHooks, PhasePlanning, PhaseActing,
                   PhaseReflecting, PhasePostHooks, PhaseSucceeded, PhaseFailed]

  /** A moment as read from the controller's clock. */
  type Time = int

  /** The object metadata the controller uses. */
  datatype ObjectMeta = ObjectMeta(name: string, namespace: string, uid: string)

  datatype AgentRunSpec = AgentRunSpec(configRef: string, goal: string, hints: seq<string>)

  datatype AgentResult = AgentResult(name: string, value: string)

  datatype AgentRunStatus = AgentRunStatus(
    phase: string,
    startTime: Option<Time>,
    completionTime: Option<Time>,
    iterations: int,
    results: seq<AgentResult>)

  /** A phase from which the run never moves again. */
  predicate PhaseDone(phase: string)
  {
    phase == PhaseSucceeded || phase == PhaseFailed
  }

  /** Of the eight phases exactly the last two, Succeeded and Failed, are done, and no two phases are equal. */
  lemma DonePhases()
    ensures forall i :: 0 <= i < |Phases| ==> (PhaseDone(Phases[i]) <==> i >= 6)
    ensures forall i, j :: 0 <= i < j < |Phases| ==> Phases[i] != Phases[j]
    ensures !PhaseDone("")
  {
  }

  const MaxNameLength := 253

  /** The metadata check shared by both resources. */
  function ValidateObjectMeta(meta: ObjectMeta): (err: Option<string>)
    ensures err.None? <==> meta.name != "" && |meta.name| <= MaxNameLength
    ensures meta.name == "" ==> err == Some("name is required")
    ensures meta.name != "" && |meta.name| > MaxNameLength ==> err == Some("name is too long (max 253 characters)")
  {
    if meta.name == "" then Some("name is required")
    else if |meta.name| > MaxNameLength then Some("name is too long (max 253 characters)")
    else None
  }

  /** An AgentRun spec names its config and states a goal. */
  function ValidateRunSpec(spec: AgentRunSpec): (err: Option<string>)
    ensures err.None? <==> spec.configRef != "" && spec.goal != ""
    ensures spec.configRef == "" ==> err == Some("configRef.name is required")
    ensures spec.configRef != "" && spec.goal == "" ==> err == Some("goal is required")
  {
    if spec.configRef == "" then Some("configRef.name is required")
    else if spec.goal == "" then Some("goal is required")
    else None
  }

  /** A single execution of an agent. Only its status changes. */
  class AgentRun {
    const meta: ObjectMeta
    const spec: AgentRunSpec
    var status: AgentRunStatus

    constructor (meta: ObjectMeta, spec: AgentRunSpec, status: AgentRunStatus)
      ensures this.meta == meta && this.spec == spec && this.status == status
    {
      this.meta := meta;
      this.spec := spec;
      this.status := status;
    }

    /** Whether the run is in one of the last two phases, from which it never moves. */
    predicate IsDone(): (d: bool)
      reads this
      ensures d <==> exists i :: 6 <= i < |Phases| && Phases[i] == status.phase
    {
      assert PhaseDone(status.phase) ==> Phases[6] == status.phase || Phases[7] == status.phase;
      PhaseDone(status.phase)
    }

    /** Whether a reconcile pass has recorded the run's start time. */
    predicate HasStarted(): (s: bool)
      reads this
      ensures !s <==> status.startTime == None
    {
      status.startTime.Some?
    }

    /** Metadata first (wrapped with "metadata: "), then the namespace, then the spec. */
    function Validate(): (err: Option<string>)
      ensures err.None? <==> (meta.name != "" && |meta.name| <= MaxNameLength && meta.namespace != ""
                              && spec.configRef != "" && spec.goal != "")
      ensures ValidateObjectMeta(meta).Some? ==> err == Some("metadata: " + ValidateObjectMeta(meta).value)
      ensures ValidateObjectMeta(meta).None? && meta.namespace == "" ==> err == Some("namespace is required")
      ensures ValidateObjectMeta(meta).None? && meta.namespace != "" ==> err == ValidateRunSpec(spec)
    {
      match ValidateObjectMeta(meta)
      case Some(e) => Some("metadata: " + e)
      case None => if meta.namespace == "" then Some("namespace is required") else ValidateRunSpec(spec)
    }

    /** An empty phase becomes Pending; nothing else changes. */
    method SetDefaults()
      modifies this
      ensures status == old(status).(phase := if old(status.phase) == "" then PhasePending else old(status.phase))
      ensures status.phase != ""
    {
      if status.phase == "" {
        status := status.(phase := PhasePending);
      }
    }
  }

  // ---------------------------------------------------------------------------
  // AgentConfig
  // ---------------------------------------------------------------------------

  const DefaultMaxIterations := 3
  /** Eight minutes, in nanoseconds. */
  const DefaultTimeout := 8 * 60 * 1000000000
  const DefaultProvider := "claude"
  const DefaultNetworkPolicy := "strict"
  const DefaultOPAPolicy := "strict"
  const DefaultServiceAccount := "default"

  datatype AgentConfigSpec = AgentConfigSpec(
    serviceAccount: string,
    configPVC: string,
    maxIterations: int,
    /** None when unset; otherwise a duration in nanoseconds. */
    timeout: Option<int>,
    preHooks: seq<string>,
    postHooks: seq<string>,
    /** The OPA enforcement mode (`policy.opa`). */
    opaMode: string,
    networkPolicy: string,
    provider: string)

  /** An optional enumerated field: unset, or one of its two values. */
  predicate UnsetOrOneOf(value: string, a: string, b: string)
  {
    value == "" || value == a || value == b
  }

  /** The config spec checks, in order; an empty optional field is accepted. */
  function ValidateConfigSpec(s: AgentConfigSpec): (err: Option<string>)
    ensures err.None? <==>
      && s.configPVC != ""
      && 0 <= s.maxIterations <= 10
      && UnsetOrOneOf(s.provider, "claude", "gemini")
      && UnsetOrOneOf(s.networkPolicy, "strict", "permissive")
      && UnsetOrOneOf(s.opaMode, "strict", "permissive")
    ensures s.configPVC == "" ==> err == Some("configPVC is required")
    ensures s.configPVC != "" && !(0 <= s.maxIterations <= 10) ==> err == Some("maxIterations must be between 0 and 10")
    ensures s.configPVC != "" && 0 <= s.maxIterations <= 10 && !UnsetOrOneOf(s.provider, "claude", "gemini")
            ==> err == Some("provider must be either 'claude' or 'gemini'")
    ensures s.configPVC != "" && 0 <= s.maxIterations <= 10 && UnsetOrOneOf(s.provider, "claude", "gemini")
            && !UnsetOrOneOf(s.networkPolicy, "strict", "permissive")
            ==> err == Some("networkPolicy must be either 'strict' or 'permissive'")
    ensures s.configPVC != "" && 0 <= s.maxIterations <= 10 && UnsetOrOneOf(s.provider, "claude", "gemini")
            && UnsetOrOneOf(s.networkPolicy, "strict", "permissive") && !UnsetOrOneOf(s.opaMode, "strict", "permissive")
            ==> err == Some("policy.opa must be either 'strict' or 'permissive'")
  {
    if s.configPVC == "" then Some("configPVC is required")
    else if s.maxIterations < 0 || s.maxIterations > 10 then Some("maxIterations must be between 0 and 10")
    else if !UnsetOrOneOf(s.provider, "claude", "gemini") then
      Some("provider must be either 'claude' or 'gemini'")
    else if !UnsetOrOneOf(s.networkPolicy, "strict", "permissive") then
      Some("networkPolicy must be either 'strict' or 'permissive'")
    else if !UnsetOrOneOf(s.opaMode, "strict", "permissive") then
      Some("policy.opa must be either 'strict' or 'permissive'")
    else None
  }

  /**
   * The spec after defaulting: every unset optional field gets its default,
   * every set field and every field without a default is kept.
   */
  function Defaulted(s: AgentConfigSpec): (d: AgentConfigSpec)
    ensures d.serviceAccount == (if s.serviceAccount == "" then DefaultServiceAccount else s.serviceAccount)
    ensures d.maxIterations == (if s.maxIterations == 0 then DefaultMaxIterations else s.maxIterations)
    ensures d.timeout == (if s.timeout.None? then Some(DefaultTimeout) else s.timeout)
    ensures d.provider == (if s.provider == "" then DefaultProvider else s.provider)
    ensures d.networkPolicy == (if s.networkPolicy == "" then DefaultNetworkPolicy else s.networkPolicy)
    ensures d.opaMode == (if s.opaMode == "" then DefaultOPAPolicy else s.opaMode)
    ensures d.configPVC == s.configPVC && d.preHooks == s.preHooks && d.postHooks == s.postHooks
  {
    AgentConfigSpec(
      if s.serviceAccount == "" then DefaultServiceAccount else s.serviceAccount,
      s.configPVC,
      if s.maxIterations == 0 then DefaultMaxIterations else s.maxIterations,
      if s.timeout.None? then Some(DefaultTimeout) else s.timeout,
      s.preHooks,
      s.postHooks,
      if s.opaMode == "" then DefaultOPAPolicy else s.opaMode,
      if s.networkPolicy == "" then DefaultNetworkPolicy else s.networkPolicy,
      if s.provider == "" then DefaultProvider else s.provider)
  }

  /** Defaulting leaves no optional field unset, and defaulting twice is defaulting once. */
  lemma DefaultedComplete(s: AgentConfigSpec)
    ensures var d := Defaulted(s);
      && d.serviceAccount != "" && d.maxIterations != 0 && d.timeout.Some?
      && d.provider != "" && d.networkPolicy != "" && d.opaMode != ""
      && Defaulted(d) == d
  {
  }

  /**
   * A config that passes validation still passes after defaulting, and then
   * has between 1 and 10 iterations and a definite provider, network policy
   * and OPA mode.
   */
  lemma DefaultsKeepValid(s: AgentConfigSpec)
    requires ValidateConfigSpec(s).None?
    ensures var d := Defaulted(s);
      && ValidateConfigSpec(d).None?
      && 1 <= d.maxIterations <= 10
      && d.provider in {"claude", "gemini"}
      && d.networkPolicy in {"strict", "permissive"}
      && d.opaMode in {"strict", "permissive"}
  {
  }

  /**
   * Validating before or after defaulting gives the same answer, down to the
   * message: every default is itself an accepted value.
   */
  lemma DefaultsKeepVerdict(s: AgentConfigSpec)
    ensures ValidateConfigSpec(Defaulted(s)) == ValidateConfigSpec(s)
  {
    var d := Defaulted(s);
    assert (0 <= d.maxIterations <= 10) == (0 <= s.maxIterations <= 10);
    assert UnsetOrOneOf(d.provider, "claude", "gemini") == UnsetOrOneOf(s.provider, "claude", "gemini");
    assert UnsetOrOneOf(d.networkPolicy, "strict", "permissive") == UnsetOrOneOf(s.networkPolicy, "strict", "permissive");
    assert UnsetOrOneOf(d.opaMode, "strict", "permissive") == UnsetOrOneOf(s.opaMode, "strict", "permissive");
  }

  /** The configuration of an agent. Defaulting updates its spec in place. */
  class AgentConfig {
    const meta: ObjectMeta
    var spec: AgentConfigSpec

    constructor (meta: ObjectMeta, spec: AgentConfigSpec)
      ensures this.meta == meta && this.spec == spec
    {
      this.meta := meta;
      this.spec := spec;
    }

    /** Metadata first (wrapped with "metadata: "), then the spec. */
    function Validate(): (err: Option<string>)
      reads this
      ensures err.None? <==> ValidateObjectMeta(meta).None? && ValidateConfigSpec(spec).None?
      ensures ValidateObjectMeta(meta).Some? ==> err == Some("metadata: " + ValidateObjectMeta(meta).value)
      ensures ValidateObjectMeta(meta).None? ==> err == ValidateConfigSpec(spec)
    {
      match ValidateObjectMeta(meta)
      case Some(e) => Some("metadata: " + e)
      case None => ValidateConfigSpec(spec)
    }

    /** Fills in each unset optional field of the spec, one field at a time. */
    method SetDefaults()
      modifies this
      ensures spec == Defaulted(old(spec))
    {
      if spec.serviceAccount == "" {
        spec := spec.(serviceAccount := DefaultServiceAccount);
      }
      if spec.maxIterations == 0 {
        spec := spec.(maxIterations := DefaultMaxIterations);
      }
      if spec.timeout.None? {
        spec := spec.(timeout := Some(DefaultTimeout));
      }
      if spec.provider == "" {
        spec := spec.(provider := DefaultProvider);
      }
      if spec.networkPolicy == "" {
        spec := spec.(networkPolicy := DefaultNetworkPolicy);
      }
      if spec.opaMode == "" {
        spec := spec.(opaMode := DefaultOPAPolicy);
      }
    }
  }
}
