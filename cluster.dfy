/**
 * The slice of the Kubernetes API the controller talks to: namespaced Roles,
 * RoleBindings and Pods. A create never overwrites an existing object, and
 * any call may fail with an error the caller passes in (`fault`), standing
 * for the API server's own failures.
 */
module Cluster {
  import opened Wrappers
  import opened Kube
  import opened Security
  import opened PodBuilder

  datatype Key = Key(namespace: string, name: string)

  function KeyOf(meta: Meta): Key
  {
    Key(meta.namespace, meta.name)
  }

  /** What an API call can fail with. */
  datatype ApiError = AlreadyExists | NotFound | Other(message: string)

  const PodSucceeded := "Succeeded"
  const PodFailed := "Failed"

  /** A pod as stored: its object and the phase its status reports. */
  datatype StoredPod = StoredPod(pod: Pod, phase: string)

  /** The objects in the cluster. */
  datatype World = World(roles: map<Key, Role>, roleBindings: map<Key, RoleBinding>, pods: map<Key, StoredPod>)

  /** A create call: a fault fails it, an existing name fails it with AlreadyExists, otherwise the object is stored. */
  function Insert<V>(m: map<Key, V>, k: Key, v: V, fault: Option<string>): (r: (map<Key, V>, Option<ApiError>))
    ensures r.1 == None <==> fault.None? && k !in m
    ensures r.1 == None ==> r.0 == m[k := v]
    ensures r.1 != None ==> r.0 == m
    ensures fault.Some? ==> r.1 == Some(Other(fault.value))
    ensures fault.None? && k in m ==> r.1 == Some(AlreadyExists)
  {
    if fault.Some? then (m, Some(Other(fault.value)))
    else if k in m then (m, Some(AlreadyExists))
    else (m[k := v], None)
  }

  /** What a get call gives. */
  datatype Fetched = Found(pod: StoredPod) | FetchFailed(error: ApiError)

  /** A get call: a fault fails it, a missing name fails it with NotFound. */
  function Fetch(pods: map<Key, StoredPod>, k: Key, fault: Option<string>): (r: Fetched)
    ensures fault.Some? ==> r == FetchFailed(Other(fault.value))
    ensures fault.None? ==> (r.Found? <==> k in pods)
    ensures r.Found? ==> k in pods && r.pod == pods[k]
    ensures fault.None? && k !in pods ==> r == FetchFailed(NotFound)
  {
    if fault.Some? then FetchFailed(Other(fault.value))
    else if k !in pods then FetchFailed(NotFound)
    else Found(pods[k])
  }

  /** A create never removes or changes an object that was there, and adds at most the one named. */
  lemma InsertKeeps<V>(m: map<Key, V>, k: Key, v: V, fault: Option<string>)
    ensures var m' := Insert(m, k, v, fault).0;
      && (forall j :: j in m ==> j in m' && m'[j] == m[j])
      && (forall j :: j in m' && j !in m ==> j == k && m'[j] == v)
  {
  }

  class ApiServer {
    var roles: map<Key, Role>
    var roleBindings: map<Key, RoleBinding>
    var pods: map<Key, StoredPod>

    constructor (w: World)
      ensures Objects() == w
    {
      roles := w.roles;
      roleBindings := w.roleBindings;
      pods := w.pods;
    }

    /** Every object in the cluster. */
    function Objects(): World
      reads this
    {
      World(roles, roleBindings, pods)
    }

    method CreateRole(role: Role, fault: Option<string>) returns (err: Option<ApiError>)
      modifies this
      ensures (roles, err) == Insert(old(roles), KeyOf(role.meta), role, fault)
      ensures roleBindings == old(roleBindings) && pods == old(pods)
    {
      var k := KeyOf(role.meta);
      if fault.Some? {
        return Some(Other(fault.value));
      }
      if k in roles {
        return Some(AlreadyExists);
      }
      roles := roles[k := role];
      return None;
    }

    method CreateRoleBinding(rb: RoleBinding, fault: Option<string>) returns (err: Option<ApiError>)
      modifies this
      ensures (roleBindings, err) == Insert(old(roleBindings), KeyOf(rb.meta), rb, fault)
      ensures roles == old(roles) && pods == old(pods)
    {
      var k := KeyOf(rb.meta);
      if fault.Some? {
        return Some(Other(fault.value));
      }
      if k in roleBindings {
        return Some(AlreadyExists);
      }
      roleBindings := roleBindings[k := rb];
      return None;
    }

    /** Stores a new pod; its status does not report a phase yet. */
    method CreatePod(pod: Pod, fault: Option<string>) returns (err: Option<ApiError>)
      modifies this
      ensures (pods, err) == Insert(old(pods), KeyOf(pod.meta), StoredPod(pod, ""), fault)
      ensures roles == old(roles) && roleBindings == old(roleBindings)
    {
      var k := KeyOf(pod.meta);
      if fault.Some? {
        return Some(Other(fault.value));
      }
      if k in pods {
        return Some(AlreadyExists);
      }
      pods := pods[k := StoredPod(pod, "")];
      return None;
    }

    method GetPod(k: Key, fault: Option<string>) returns (r: Fetched)
      ensures r == Fetch(pods, k, fault)
    {
      if fault.Some? {
        return FetchFailed(Other(fault.value));
      }
      if k !in pods {
        return FetchFailed(NotFound);
      }
      return Found(pods[k]);
    }
  }
}
