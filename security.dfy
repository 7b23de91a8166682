/**
 * The per-run RBAC objects: a namespaced read-only Role and the RoleBinding
 * that grants it to the config's service account.
 */
module Security {
  import opened V1alpha1
  import opened Kube

  datatype PolicyRule = PolicyRule(apiGroups: seq<string>, resources: seq<string>, verbs: seq<string>)

  datatype Role = Role(meta: Meta, rules: seq<PolicyRule>)

  datatype RoleRef = RoleRef(apiGroup: string, kind: string, name: string)

  datatype Subject = Subject(kind: string, name: string, namespace: string)

  datatype RoleBinding = RoleBinding(meta: Meta, roleRef: RoleRef, subjects: seq<Subject>)

  const ReadVerbs := ["get", "list", "watch"]

  /** The labels of both RBAC objects of a run. */
  function RbacLabels(run: ObjectMeta): map<string, string>
  {
    map[LabelAgentRun := run.name, LabelComponent := "agent-rbac", LabelManagedBy := ManagedBy]
  }

  /** The Role's name, derived from the run's name alone: "agentrun-" and then the run's name. */
  function RoleName(run: ObjectMeta): (n: string)
    ensures |n| == |run.name| + 9
    ensures n[..9] == "agentrun-" && n[9..] == run.name
  {
    "agentrun-" + run.name
  }

  /** The RoleBinding's name; the same as the Role's. */
  function RoleBindingName(run: ObjectMeta): (n: string)
    ensures n == RoleName(run)
  {
    "agentrun-" + run.name
  }

  /**
   * The Role name determines the run's name. It does not determine the
   * namespace: runs of the same name in two namespaces share the name, and
   * are kept apart only because each Role lives in its run's namespace.
   */
  lemma RoleNameInjective(a: ObjectMeta, b: ObjectMeta)
    requires RoleName(a) == RoleName(b)
    ensures a.name == b.name
  {
    assert a.name == RoleName(a)[9..];
    assert b.name == RoleName(b)[9..];
  }

  /** Whether `role` allows `verb` on `resource` of API group `group`. */
  predicate Grants(role: Role, group: string, resource: string, verb: string)
  {
    exists i :: 0 <= i < |role.rules|
      && group in role.rules[i].apiGroups && resource in role.rules[i].resources && verb in role.rules[i].verbs
  }

  /** The read-only Role of a run: core workload objects and events, and the apps workload controllers. */
  function GenerateRole(run: ObjectMeta): (role: Role)
    ensures role.meta.name == RoleName(run) && role.meta.namespace == run.namespace
    ensures role.meta.labels == RbacLabels(run) && ControlledBy(role.meta, run)
    ensures forall i :: 0 <= i < |role.rules| ==> role.rules[i].verbs == ReadVerbs
  {
    Role(
      Meta(RoleName(run), run.namespace, RbacLabels(run), [ControllerRef(run)]),
      [ PolicyRule([""], ["pods", "services", "endpoints"], ReadVerbs),
        PolicyRule(["apps"], ["deployments", "replicasets", "statefulsets", "daemonsets"], ReadVerbs),
        PolicyRule([""], ["events"], ReadVerbs) ])
  }

  /**
   * Exactly what the Role allows: get, list and watch, on pods, services,
   * endpoints and events in the core group and on deployments, replica sets,
   * stateful sets and daemon sets in the apps group, and nothing else: no
   * write verb, no secrets, no config maps.
   */
  lemma RoleGrantsExactly(run: ObjectMeta, group: string, resource: string, verb: string)
    ensures Grants(GenerateRole(run), group, resource, verb) <==>
      && (verb == "get" || verb == "list" || verb == "watch")
      && ((group == "" && (resource == "pods" || resource == "services" || resource == "endpoints" || resource == "events"))
       || (group == "apps" && (resource == "deployments" || resource == "replicasets"
                               || resource == "statefulsets" || resource == "daemonsets")))
  {
    var role := GenerateRole(run);
    var r0, r1, r2 := role.rules[0], role.rules[1], role.rules[2];
    if Grants(role, group, resource, verb) {
      var i :| 0 <= i < |role.rules| && group in role.rules[i].apiGroups
                && resource in role.rules[i].resources && verb in role.rules[i].verbs;
      assert i == 0 || i == 1 || i == 2;
    } else {
      if group == "" && (resource == "pods" || resource == "services" || resource == "endpoints") {
        assert group in r0.apiGroups && resource in r0.resources;
      }
      if group == "" && resource == "events" {
        assert group in r2.apiGroups && resource in r2.resources;
      }
      if group == "apps" {
        assert group in r1.apiGroups;
      }
    }
  }

  /** The RoleBinding that grants the run's Role to the config's service account in the run's namespace. */
  function GenerateRoleBinding(run: ObjectMeta, config: AgentConfigSpec, roleName: string): (rb: RoleBinding)
    ensures rb.meta.name == RoleBindingName(run) && rb.meta.namespace == run.namespace
    ensures rb.meta.labels == RbacLabels(run) && ControlledBy(rb.meta, run)
    ensures rb.roleRef == RoleRef("rbac.authorization.k8s.io", "Role", roleName)
    ensures rb.subjects == [Subject("ServiceAccount", config.serviceAccount, run.namespace)]
  {
    RoleBinding(
      Meta(RoleBindingName(run), run.namespace, RbacLabels(run), [ControllerRef(run)]),
      RoleRef("rbac.authorization.k8s.io", "Role", roleName),
      [Subject("ServiceAccount", config.serviceAccount, run.namespace)])
  }

  /**
   * The binding made from the generated Role refers to that Role, lives in
   * the same namespace, and binds one subject only: the service account the
   * agent pod runs as.
   */
  lemma BindingMatchesRole(run: ObjectMeta, config: AgentConfigSpec)
    ensures var role := GenerateRole(run);
      var rb := GenerateRoleBinding(run, config, role.meta.name);
      && rb.roleRef.name == role.meta.name && rb.meta.namespace == role.meta.namespace
      && |rb.subjects| == 1 && rb.subjects[0].namespace == role.meta.namespace
      && rb.subjects[0].name == config.serviceAccount
  {
  }
}
