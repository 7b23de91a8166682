/**
 * What one reconcile pass promises, proved about `ReconcileSpec`.
 */
module ReconcileProperties {
  import opened Wrappers
  import opened V1alpha1
  import opened Kube
  import opened Security
  import opened PodBuilder
  import opened Cluster
  import opened Reconcile

  /**
   * The Role's key names its run: two runs whose Roles would share a key
   * have the same name and namespace. The same holds for the agent pod.
   */
  lemma RunKeysInjective(a: ObjectMeta, b: ObjectMeta)
    ensures RoleKey(a) == RoleKey(b) ==> a.name == b.name && a.namespace == b.namespace
    ensures PodKey(a) == PodKey(b) ==> a.name == b.name && a.namespace == b.namespace
  {
    if RoleKey(a) == RoleKey(b) {
      RoleNameInjective(a, b);
    }
    if PodKey(a) == PodKey(b) {
      assert |a.name| == |b.name|;
      assert a.name == PodName(a)[..|a.name|];
    }
  }

  /** A run that is done is left exactly as it is, and so is the cluster. */
  lemma DoneRunIsLeftAlone(image: string, run: ObjectMeta, spec: AgentRunSpec, status: AgentRunStatus,
                           config: Option<ConfigView>, w: World, faults: Faults, now: Time)
    requires PhaseDone(status.phase)
    ensures ReconcileSpec(image, run, spec, status, config, w, faults, now) == Outcome(status, w, None)
  {
  }

  /** Without its config a run that is not done gets an error naming the config, and nothing changes. */
  lemma MissingConfigChangesNothing(image: string, run: ObjectMeta, spec: AgentRunSpec, status: AgentRunStatus,
                                    w: World, faults: Faults, now: Time)
    requires !PhaseDone(status.phase)
    ensures var o := ReconcileSpec(image, run, spec, status, None, w, faults, now);
      && o.status == status && o.world == w
      && o.err == Some("failed to get AgentConfig: AgentConfig \"" + spec.configRef + "\" not found")
  {
  }

  /** One kind of object after a pass: nothing removed or replaced, and anything new is named `k`. */
  ghost predicate GrowsAt<V>(m: map<Key, V>, m': map<Key, V>, k: Key)
  {
    && (forall j :: j in m ==> j in m' && m'[j] == m[j])
    && (forall j :: j in m' && j !in m ==> j == k)
  }

  /** The cluster's objects after a pass: nothing removed or replaced, and new objects only under the run's own names. */
  ghost predicate OnlyAdds(run: ObjectMeta, w: World, w': World)
  {
    && GrowsAt(w.roles, w'.roles, RoleKey(run))
    && GrowsAt(w.roleBindings, w'.roleBindings, RoleKey(run))
    && GrowsAt(w.pods, w'.pods, PodKey(run))
  }

  lemma InsertGrows<V>(m: map<Key, V>, k: Key, v: V, fault: Option<string>)
    ensures GrowsAt(m, Insert(m, k, v, fault).0, k)
  {
    InsertKeeps(m, k, v, fault);
  }

  lemma CreateRbacOnlyAdds(run: ObjectMeta, config: ConfigView, w: World, faults: Faults)
    ensures OnlyAdds(run, w, CreateRbacSpec(run, config, w, faults).0)
  {
    var role := GenerateRole(run);
    assert KeyOf(role.meta) == RoleKey(run);
    InsertGrows(w.roles, RoleKey(run), role, faults.createRole);
    var rb := GenerateRoleBinding(run, config.spec, role.meta.name);
    assert KeyOf(rb.meta) == RoleKey(run);
    InsertGrows(w.roleBindings, RoleKey(run), rb, faults.createRoleBinding);
    assert GrowsAt(w.pods, w.pods, PodKey(run));
  }

  lemma CreatePodOnlyAdds(image: string, run: ObjectMeta, spec: AgentRunSpec, config: ConfigView, w: World, faults: Faults)
    ensures OnlyAdds(run, w, CreatePodSpec(image, run, spec, config, w, faults).0)
  {
    var pod := Builder(image).Build(run, spec, config.name, config.spec);
    assert KeyOf(pod.meta) == PodKey(run);
    InsertGrows(w.pods, PodKey(run), StoredPod(pod, ""), faults.createPod);
    assert GrowsAt(w.roles, w.roles, RoleKey(run));
    assert GrowsAt(w.roleBindings, w.roleBindings, RoleKey(run));
  }

  lemma OnlyAddsTrans(run: ObjectMeta, w: World, w1: World, w2: World)
    requires OnlyAdds(run, w, w1) && OnlyAdds(run, w1, w2)
    ensures OnlyAdds(run, w, w2)
  {
  }

  lemma PendingOnlyAdds(image: string, run: ObjectMeta, spec: AgentRunSpec, status: AgentRunStatus,
                        config: ConfigView, w: World, faults: Faults)
    ensures OnlyAdds(run, w, PendingSpec(image, run, spec, status, config, w, faults).world)
  {
    var (w1, e1) := CreateRbacSpec(run, config, w, faults);
    CreateRbacOnlyAdds(run, config, w, faults);
    if e1.None? {
      var (w2, e2) := CreatePodSpec(image, run, spec, config, w1, faults);
      CreatePodOnlyAdds(image, run, spec, config, w1, faults);
      OnlyAddsTrans(run, w, w1, w2);
    }
  }

  /**
   * A pass never deletes or overwrites an object, even one of its own from
   * an earlier pass, and creates objects only under the run's Role and pod
   * names in the run's namespace.
   */
  lemma ReconcileOnlyAdds(image: string, run: ObjectMeta, spec: AgentRunSpec, status: AgentRunStatus,
                          config: Option<ConfigView>, w: World, faults: Faults, now: Time)
    ensures OnlyAdds(run, w, ReconcileSpec(image, run, spec, status, config, w, faults, now).world)
  {
    var o := ReconcileSpec(image, run, spec, status, config, w, faults, now);
    if !PhaseDone(status.phase) && config.Some? {
      var started := if status.startTime.None? then status.(startTime := Some(now)) else status;
      if started.phase == PhasePending {
        PendingOnlyAdds(image, run, spec, started, config.value, w, faults);
        return;
      }
    }
    assert o.world == w;
    assert GrowsAt(w.roles, w.roles, RoleKey(run));
    assert GrowsAt(w.roleBindings, w.roleBindings, RoleKey(run));
    assert GrowsAt(w.pods, w.pods, PodKey(run));
  }

  /** The phase moves the reconciler may make. */
  predicate Transition(from: string, to: string)
  {
    || from == to
    || (from == PhasePending && to == PhaseActing)
    || (from == PhaseActing && (to == PhasePending || to == PhaseSucceeded || to == PhaseFailed))
    || (!PhaseDone(from) && from != PhasePending && from != PhaseActing && to == PhasePending)
  }

  /** A Pending pass either fails and leaves the status alone, or succeeds and only moves the phase to Acting. */
  lemma PendingStatus(image: string, run: ObjectMeta, spec: AgentRunSpec, status: AgentRunStatus,
                      config: ConfigView, w: World, faults: Faults)
    ensures var o := PendingSpec(image, run, spec, status, config, w, faults);
      || (o.err.Some? && o.status == status)
      || (o.err.None? && o.status == status.(phase := PhaseActing))
  {
  }

  /**
   * A failed RBAC step stops the Pending pass before the pod is created: a
   * Role that cannot be created leaves the cluster as it was, and a
   * RoleBinding that cannot be created leaves the bindings and pods as they
   * were; either way the status is unchanged and the error names the step.
   */
  lemma RbacFailureStopsPending(image: string, run: ObjectMeta, spec: AgentRunSpec, status: AgentRunStatus,
                                config: ConfigView, w: World, faults: Faults)
    ensures var o := PendingSpec(image, run, spec, status, config, w, faults);
      faults.createRole.Some? ==>
        && o.world == w && o.status == status
        && o.err == Some("failed to create RBAC: " + ("failed to create role: " + faults.createRole.value))
    ensures var o := PendingSpec(image, run, spec, status, config, w, faults);
      faults.createRole.None? && faults.createRoleBinding.Some? ==>
        && o.world.pods == w.pods && o.world.roleBindings == w.roleBindings && o.status == status
        && o.err == Some("failed to create RBAC: " + ("failed to create rolebinding: " + faults.createRoleBinding.value))
  {
    if faults.createRole.Some? {
      assert CreateRbacSpec(run, config, w, faults) == (w, Some("failed to create role: " + faults.createRole.value));
    } else if faults.createRoleBinding.Some? {
      var (w1, e1) := CreateRbacSpec(run, config, w, faults);
      assert w1.pods == w.pods && w1.roleBindings == w.roleBindings;
      assert e1 == Some("failed to create rolebinding: " + faults.createRoleBinding.value);
    }
  }

  /** So a reconcile pass over a Pending run whose RBAC step fails creates no pod and stays Pending. */
  lemma RbacFailureCreatesNoPod(image: string, run: ObjectMeta, spec: AgentRunSpec, status: AgentRunStatus,
                                config: ConfigView, w: World, faults: Faults, now: Time)
    requires status.phase == PhasePending
    requires faults.createRole.Some? || faults.createRoleBinding.Some?
    ensures var o := ReconcileSpec(image, run, spec, status, Some(config), w, faults, now);
      && o.world.pods == w.pods && o.err.Some? && o.status.phase == PhasePending
  {
    var started := if status.startTime.None? then status.(startTime := Some(now)) else status;
    RbacFailureStopsPending(image, run, spec, started, config, w, faults);
  }

  /** An Acting pass leaves the status alone, sends it back to Pending, or ends it with the completion time now. */
  lemma ActingStatus(run: ObjectMeta, status: AgentRunStatus, w: World, faults: Faults, now: Time)
    ensures var o := ActingSpec(run, status, w, faults, now);
      && o.world == w
      && (|| o.status == status
          || (o.err.None? && o.status == status.(phase := PhasePending))
          || (o.err.None? && o.status == status.(phase := PhaseSucceeded, completionTime := Some(now)))
          || (o.err.None? && o.status == status.(phase := PhaseFailed, completionTime := Some(now))))
  {
  }

  /**
   * A get of the agent pod that fails with anything but NotFound is an error
   * naming its cause; the status and the cluster stay as they were.
   */
  lemma ActingGetFault(run: ObjectMeta, status: AgentRunStatus, w: World, faults: Faults, now: Time)
    requires faults.getPod.Some?
    ensures ActingSpec(run, status, w, faults, now)
         == Outcome(status, w, Some("failed to get agent pod: " + faults.getPod.value))
  {
  }

  /** So a reconcile pass over an Acting run whose pod cannot be read leaves the run Acting, with that error. */
  lemma ActingGetFaultKeepsActing(image: string, run: ObjectMeta, spec: AgentRunSpec, status: AgentRunStatus,
                                  config: ConfigView, w: World, faults: Faults, now: Time)
    requires status.phase == PhaseActing && faults.getPod.Some?
    ensures var o := ReconcileSpec(image, run, spec, status, Some(config), w, faults, now);
      && o.world == w && o.status.phase == PhaseActing
      && o.err == Some("failed to get agent pod: " + faults.getPod.value)
  {
    var started := if status.startTime.None? then status.(startTime := Some(now)) else status;
    ActingGetFault(run, started, w, faults, now);
  }

  /**
   * A pass moves the phase only along the allowed transitions; a done phase
   * never changes; an error leaves the phase as it was; the start time, once
   * set, is kept, and is set by any pass that finds the config; the
   * completion time changes only when the run becomes done, and then to
   * now; the iteration count and results are never touched.
   */
  lemma ReconcileStatus(image: string, run: ObjectMeta, spec: AgentRunSpec, status: AgentRunStatus,
                        config: Option<ConfigView>, w: World, faults: Faults, now: Time)
    ensures var o := ReconcileSpec(image, run, spec, status, config, w, faults, now);
      && Transition(status.phase, o.status.phase)
      && (PhaseDone(status.phase) ==> o.status == status)
      && (o.err.Some? ==> o.status.phase == status.phase)
      && (status.startTime.Some? ==> o.status.startTime == status.startTime)
      && (!PhaseDone(status.phase) && config.Some? ==> o.status.startTime.Some?)
      && (o.status.completionTime != status.completionTime ==> PhaseDone(o.status.phase) && o.status.completionTime == Some(now))
      && (!PhaseDone(status.phase) && PhaseDone(o.status.phase) ==> o.status.completionTime == Some(now))
      && o.status.iterations == status.iterations && o.status.results == status.results
  {
    if !PhaseDone(status.phase) && config.Some? {
      var started := if status.startTime.None? then status.(startTime := Some(now)) else status;
      if started.phase == PhasePending {
        PendingStatus(image, run, spec, started, config.value, w, faults);
      } else if started.phase == PhaseActing {
        ActingStatus(run, started, w, faults, now);
      }
    }
  }

  /** Without API failures the RBAC step succeeds and leaves the run's Role and RoleBinding in place. */
  lemma CreateRbacWithoutFaults(run: ObjectMeta, config: ConfigView, w: World)
    ensures var (w', e) := CreateRbacSpec(run, config, w, NoFaults);
      && e == None && w'.pods == w.pods
      && RoleKey(run) in w'.roles && RoleKey(run) in w'.roleBindings
      && (RoleKey(run) !in w.roles ==> w'.roles[RoleKey(run)] == GenerateRole(run))
      && (RoleKey(run) !in w.roleBindings ==>
            w'.roleBindings[RoleKey(run)] == GenerateRoleBinding(run, config.spec, RoleName(run)))
  {
    var role := GenerateRole(run);
    assert KeyOf(role.meta) == RoleKey(run);
    var rb := GenerateRoleBinding(run, config.spec, role.meta.name);
    assert KeyOf(rb.meta) == RoleKey(run);
  }

  /** Without API failures the pod step succeeds and leaves the run's pod in place. */
  lemma CreatePodWithoutFaults(image: string, run: ObjectMeta, spec: AgentRunSpec, config: ConfigView, w: World)
    ensures var (w', e) := CreatePodSpec(image, run, spec, config, w, NoFaults);
      && e == None && w'.roles == w.roles && w'.roleBindings == w.roleBindings
      && PodKey(run) in w'.pods
      && (PodKey(run) !in w.pods ==>
            w'.pods[PodKey(run)] == StoredPod(Builder(image).Build(run, spec, config.name, config.spec), ""))
  {
    var pod := Builder(image).Build(run, spec, config.name, config.spec);
    assert KeyOf(pod.meta) == PodKey(run);
  }

  /**
   * Without API failures a Pending pass always succeeds and moves the run to
   * Acting, whatever already exists (objects left by an earlier, failed pass
   * are accepted as they are), and afterwards the run's Role, RoleBinding and
   * pod all exist; those that did not exist before are the generated ones.
   */
  lemma PendingWithoutFaultsActs(image: string, run: ObjectMeta, spec: AgentRunSpec, status: AgentRunStatus,
                                 config: ConfigView, w: World, now: Time)
    requires status.phase == PhasePending
    ensures var o := ReconcileSpec(image, run, spec, status, Some(config), w, NoFaults, now);
      && o.err == None && o.status.phase == PhaseActing
      && RoleKey(run) in o.world.roles && RoleKey(run) in o.world.roleBindings && PodKey(run) in o.world.pods
      && (RoleKey(run) !in w.roles ==> o.world.roles[RoleKey(run)] == GenerateRole(run))
      && (RoleKey(run) !in w.roleBindings ==>
            o.world.roleBindings[RoleKey(run)] == GenerateRoleBinding(run, config.spec, RoleName(run)))
      && (PodKey(run) !in w.pods ==>
            o.world.pods[PodKey(run)] == StoredPod(Builder(image).Build(run, spec, config.name, config.spec), ""))
  {
    var started := if status.startTime.None? then status.(startTime := Some(now)) else status;
    CreateRbacWithoutFaults(run, config, w);
    var w1 := CreateRbacSpec(run, config, w, NoFaults).0;
    CreatePodWithoutFaults(image, run, spec, config, w1);
    assert ReconcileSpec(image, run, spec, status, Some(config), w, NoFaults, now)
        == PendingSpec(image, run, spec, started, config, w, NoFaults);
  }

  /**
   * While Acting, the pass follows the agent pod: gone sends the run back
   * to Pending, Succeeded or Failed ends the run, any other phase changes
   * nothing; the cluster is never changed.
   */
  lemma ActingFollowsPod(image: string, run: ObjectMeta, spec: AgentRunSpec, status: AgentRunStatus,
                         config: ConfigView, w: World, now: Time)
    requires status.phase == PhaseActing && status.startTime.Some?
    ensures var o := ReconcileSpec(image, run, spec, status, Some(config), w, NoFaults, now);
      && o.world == w && o.err == None
      && (PodKey(run) !in w.pods ==> o.status == status.(phase := PhasePending))
      && (PodKey(run) in w.pods && w.pods[PodKey(run)].phase == PodSucceeded ==>
            o.status == status.(phase := PhaseSucceeded, completionTime := Some(now)))
      && (PodKey(run) in w.pods && w.pods[PodKey(run)].phase == PodFailed ==>
            o.status == status.(phase := PhaseFailed, completionTime := Some(now)))
      && (PodKey(run) in w.pods && w.pods[PodKey(run)].phase != PodSucceeded && w.pods[PodKey(run)].phase != PodFailed ==>
            o.status == status)
  {
  }

  /** The kubelet finishing the agent pod: its status reports `phase`. */
  function PodFinished(w: World, k: Key, phase: string): World
    requires k in w.pods
  {
    w.(pods := w.pods[k := w.pods[k].(phase := phase)])
  }

  /**
   * A run's whole life in an empty namespace: the first pass creates the RBAC
   * objects and the pod and moves to Acting; a second pass while the pod
   * runs changes nothing; once the pod has succeeded the next pass marks the
   * run Succeeded; after that every pass leaves it alone.
   */
  lemma Lifecycle(image: string, run: ObjectMeta, spec: AgentRunSpec, config: ConfigView, t0: Time, t1: Time, t2: Time)
    ensures
      var s0 := AgentRunStatus(PhasePending, None, None, 0, []);
      var w0 := World(map[], map[], map[]);
      var o1 := ReconcileSpec(image, run, spec, s0, Some(config), w0, NoFaults, t0);
      && o1.err == None && o1.status.phase == PhaseActing && o1.status.startTime == Some(t0)
      && PodKey(run) in o1.world.pods
      && var o2 := ReconcileSpec(image, run, spec, o1.status, Some(config), o1.world, NoFaults, t1);
      && o2 == Outcome(o1.status, o1.world, None)
      && var w2 := PodFinished(o1.world, PodKey(run), PodSucceeded);
      && var o3 := ReconcileSpec(image, run, spec, o1.status, Some(config), w2, NoFaults, t2);
      && o3.err == None && o3.status.phase == PhaseSucceeded
      && o3.status.startTime == Some(t0) && o3.status.completionTime == Some(t2)
      && ReconcileSpec(image, run, spec, o3.status, Some(config), w2, NoFaults, t2) == Outcome(o3.status, w2, None)
  {
    var s0 := AgentRunStatus(PhasePending, None, None, 0, []);
    var w0 := World(map[], map[], map[]);
    PendingWithoutFaultsActs(image, run, spec, s0, config, w0, t0);
    var o1 := ReconcileSpec(image, run, spec, s0, Some(config), w0, NoFaults, t0);
    assert o1.world.pods[PodKey(run)].phase == "";
    ActingFollowsPod(image, run, spec, o1.status, config, o1.world, t1);
    var w2 := PodFinished(o1.world, PodKey(run), PodSucceeded);
    ActingFollowsPod(image, run, spec, o1.status, config, w2, t2);
  }
}
