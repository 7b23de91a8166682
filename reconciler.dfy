/**
 * The AgentRun reconciler: one pass moves a run through its phases,
 * creating the run's RBAC objects and agent pod while Pending and following
 * the pod's phase while Acting.
 *
 * `Reconciler.Reconcile` is the imperative pass; `ReconcileSpec` is the same
 * pass written as a function, about which the lemmas are stated. The clock
 * (`now`) and the API server's failures (`Faults`) are parameters.
 */
module Reconcile {
  import opened Wrappers
  import opened V1alpha1
  import opened Kube
  import opened Security
  import opened PodBuilder
  import opened Cluster

  /** The failure, if any, of each API call one pass may make. */
  datatype Faults = Faults(createRole: Option<string>, createRoleBinding: Option<string>,
                           createPod: Option<string>, getPod: Option<string>)

  const NoFaults := Faults(None, None, None, None)

  /** The config a run refers to, as the reconciler sees it: its name and spec. */
  datatype ConfigView = ConfigView(name: string, spec: AgentConfigSpec)

  /** What one pass leaves behind: the run's status, the cluster's objects, and the error returned. */
  datatype Outcome = Outcome(status: AgentRunStatus, world: World, err: Option<string>)

  function RoleKey(run: ObjectMeta): Key
  {
    Key(run.namespace, RoleName(run))
  }

  function PodKey(run: ObjectMeta): Key
  {
    Key(run.namespace, PodName(run))
  }

  /** An API error that a create call does not tolerate. */
  predicate CreateFailed(err: Option<ApiError>)
  {
    err.Some? && !err.value.AlreadyExists?
  }

  function Message(err: ApiError): string
  {
    match err
    case AlreadyExists => "already exists"
    case NotFound => "not found"
    case Other(m) => m
  }

  /** Creating the Role, then the RoleBinding; an object that already exists is fine. */
  function CreateRbacSpec(run: ObjectMeta, config: ConfigView, w: World, faults: Faults): (World, Option<string>)
  {
    var role := GenerateRole(run);
    var (roles, e1) := Insert(w.roles, KeyOf(role.meta), role, faults.createRole);
    if CreateFailed(e1) then (w.(roles := roles), Some("failed to create role: " + Message(e1.value)))
    else
      var rb := GenerateRoleBinding(run, config.spec, role.meta.name);
      var (bindings, e2) := Insert(w.roleBindings, KeyOf(rb.meta), rb, faults.createRoleBinding);
      var w' := w.(roles := roles, roleBindings := bindings);
      if CreateFailed(e2) then (w', Some("failed to create rolebinding: " + Message(e2.value)))
      else (w', None)
  }

  /** Creating the agent pod; a pod that already exists is fine. */
  function CreatePodSpec(image: string, run: ObjectMeta, spec: AgentRunSpec, config: ConfigView,
                         w: World, faults: Faults): (World, Option<string>)
  {
    var pod := Builder(image).Build(run, spec, config.name, config.spec);
    var (pods, e) := Insert(w.pods, KeyOf(pod.meta), StoredPod(pod, ""), faults.createPod);
    (w.(pods := pods), if CreateFailed(e) then Some("failed to create pod: " + Message(e.value)) else None)
  }

  /** Pending: RBAC, then the pod, then Acting. */
  function PendingSpec(image: string, run: ObjectMeta, spec: AgentRunSpec, status: AgentRunStatus,
                       config: ConfigView, w: World, faults: Faults): Outcome
  {
    var (w1, e1) := CreateRbacSpec(run, config, w, faults);
    if e1.Some? then Outcome(status, w1, Some("failed to create RBAC: " + e1.value))
    else
      var (w2, e2) := CreatePodSpec(image, run, spec, config, w1, faults);
      if e2.Some? then Outcome(status, w2, Some("failed to create agent pod: " + e2.value))
      else Outcome(status.(phase := PhaseActing), w2, None)
  }

  /** Acting: follow the agent pod; a missing pod sends the run back to Pending. */
  function ActingSpec(run: ObjectMeta, status: AgentRunStatus, w: World, faults: Faults, now: Time): Outcome
  {
    match Fetch(w.pods, PodKey(run), faults.getPod)
    case FetchFailed(e) =>
      if e.NotFound? then Outcome(status.(phase := PhasePending), w, None)
      else Outcome(status, w, Some("failed to get agent pod: " + Message(e)))
    case Found(p) =>
      if p.phase == PodSucceeded then Outcome(status.(phase := PhaseSucceeded, completionTime := Some(now)), w, None)
      else if p.phase == PodFailed then Outcome(status.(phase := PhaseFailed, completionTime := Some(now)), w, None)
      else Outcome(status, w, None)
  }

  /** One reconcile pass over a run whose config lookup gave `config`. */
  function ReconcileSpec(image: string, run: ObjectMeta, spec: AgentRunSpec, status: AgentRunStatus,
                         config: Option<ConfigView>, w: World, faults: Faults, now: Time): (o: Outcome)
    ensures PhaseDone(status.phase) ==> o.status == status && o.world == w && o.err.None?
    ensures config.None? ==> o.world == w && (o.err.Some? <==> !PhaseDone(status.phase))
  {
    if PhaseDone(status.phase) then Outcome(status, w, None)
    else if config.None? then
      Outcome(status, w, Some("failed to get AgentConfig: AgentConfig \"" + spec.configRef + "\" not found"))
    else
      var started := if status.startTime.None? then status.(startTime := Some(now)) else status;
      if started.phase == PhasePending then PendingSpec(image, run, spec, started, config.value, w, faults)
      else if started.phase == PhaseActing then ActingSpec(run, started, w, faults, now)
      else Outcome(started.(phase := PhasePending), w, None)
  }

  class Reconciler {
    const cluster: ApiServer
    const image: string
    const configs: map<string, AgentConfig>

    constructor (cluster: ApiServer, image: string, configs: map<string, AgentConfig>)
      ensures this.cluster == cluster && this.image == image && this.configs == configs
    {
      this.cluster := cluster;
      this.image := image;
      this.configs := configs;
    }

    /** The config named `name`, as it stands now. */
    function ConfigNamed(name: string): Option<ConfigView>
      reads configs.Values
    {
      if name in configs then Some(ConfigView(configs[name].meta.name, configs[name].spec)) else None
    }

    /** One reconcile pass: the run's status and the cluster change as `ReconcileSpec` says, and nothing else does. */
    method Reconcile(run: AgentRun, faults: Faults, now: Time) returns (err: Option<string>)
      modifies run, cluster
      ensures var o := ReconcileSpec(image, run.meta, run.spec, old(run.status), ConfigNamed(run.spec.configRef),
                                     old(cluster.Objects()), faults, now);
        run.status == o.status && cluster.Objects() == o.world && err == o.err
    {
      if run.IsDone() {
        return None;
      }
      var config := GetAgentConfig(run);
      if config.None? {
        return Some("failed to get AgentConfig: AgentConfig \"" + run.spec.configRef + "\" not found");
      }
      if !run.HasStarted() {
        run.status := run.status.(startTime := Some(now));
      }
      if run.status.phase == PhasePending {
        err := HandlePending(run, config.value, faults);
      } else if run.status.phase == PhaseActing {
        err := HandleActing(run, faults, now);
      } else {
        run.status := run.status.(phase := PhasePending);
        err := None;
      }
    }

    method GetAgentConfig(run: AgentRun) returns (config: Option<ConfigView>)
      ensures config == ConfigNamed(run.spec.configRef)
    {
      if run.spec.configRef !in configs {
        return None;
      }
      var c := configs[run.spec.configRef];
      return Some(ConfigView(c.meta.name, c.spec));
    }

    method HandlePending(run: AgentRun, config: ConfigView, faults: Faults) returns (err: Option<string>)
      modifies run, cluster
      ensures var o := PendingSpec(image, run.meta, run.spec, old(run.status), config, old(cluster.Objects()), faults);
        run.status == o.status && cluster.Objects() == o.world && err == o.err
    {
      var e := CreateRbac(run, config, faults);
      if e.Some? {
        return Some("failed to create RBAC: " + e.value);
      }
      e := CreateAgentPod(run, config, faults);
      if e.Some? {
        return Some("failed to create agent pod: " + e.value);
      }
      run.status := run.status.(phase := PhaseActing);
      return None;
    }

    method HandleActing(run: AgentRun, faults: Faults, now: Time) returns (err: Option<string>)
      modifies run
      ensures var o := ActingSpec(run.meta, old(run.status), cluster.Objects(), faults, now);
        run.status == o.status && err == o.err
    {
      var fetched := cluster.GetPod(PodKey(run.meta), faults.getPod);
      if fetched.FetchFailed? {
        if fetched.error.NotFound? {
          run.status := run.status.(phase := PhasePending);
          return None;
        }
        return Some("failed to get agent pod: " + Message(fetched.error));
      }
      if fetched.pod.phase == PodSucceeded {
        run.status := run.status.(phase := PhaseSucceeded, completionTime := Some(now));
      } else if fetched.pod.phase == PodFailed {
        run.status := run.status.(phase := PhaseFailed, completionTime := Some(now));
      }
      return None;
    }

    method CreateRbac(run: AgentRun, config: ConfigView, faults: Faults) returns (err: Option<string>)
      modifies cluster
      ensures (cluster.Objects(), err) == CreateRbacSpec(run.meta, config, old(cluster.Objects()), faults)
    {
      var role := GenerateRole(run.meta);
      var e := cluster.CreateRole(role, faults.createRole);
      if CreateFailed(e) {
        return Some("failed to create role: " + Message(e.value));
      }
      var rb := GenerateRoleBinding(run.meta, config.spec, role.meta.name);
      e := cluster.CreateRoleBinding(rb, faults.createRoleBinding);
      if CreateFailed(e) {
        return Some("failed to create rolebinding: " + Message(e.value));
      }
      return None;
    }

    method CreateAgentPod(run: AgentRun, config: ConfigView, faults: Faults) returns (err: Option<string>)
      modifies cluster
      ensures (cluster.Objects(), err) == CreatePodSpec(image, run.meta, run.spec, config, old(cluster.Objects()), faults)
    {
      var pod := Builder(image).Build(run.meta, run.spec, config.name, config.spec);
      var e := cluster.CreatePod(pod, faults.createPod);
      if CreateFailed(e) {
        return Some("failed to create pod: " + Message(e.value));
      }
      return None;
    }
  }
}
